/** The power-analysis engine: from the decoded records and sessions of a FIT file to the
    reported `PowerAnalysis`. `Analyze` is the reference definition of what is reported;
    `ParseFitData` computes it the way the engine does (session first, record fallback,
    running totals, the zone map, the final filter/map/sort) and is proved to agree with it. */
module ParseFit {
  import opened Optional
  import opened Numeric
  import opened Text
  import opened Telemetry
  import opened PowerZones
  import opened Tallies
  import opened ZoneList

  /** The engine's result. */
  datatype PowerAnalysis = PowerAnalysis(
    averagePower: int,
    thresholdPower: Option<real>,
    leftRightBalance: Option<Pair>,
    pedalSmoothness: Option<Pair>,
    torqueEffectiveness: Option<Pair>,
    powerZoneBalances: seq<PowerZoneBalance>)

  // ---- Reference definition ----

  /** The first session reports a positive average power (`session.avg_power && session.avg_power > 0`).
      Only the first session is ever read. */
  predicate SessionHasPower(sessions: seq<Session>) {
    |sessions| > 0 && sessions[0].avgPower.Some? && sessions[0].avgPower.value > 0.0
  }

  /** The average power after the session step: the session's rounded average, or 0. */
  function SessionAverage(sessions: seq<Session>): int {
    if SessionHasPower(sessions) then Round(sessions[0].avgPower.value) else 0
  }

  /** The threshold power is taken only from a session with positive average power. */
  function SessionThreshold(sessions: seq<Session>): Option<real> {
    if SessionHasPower(sessions) && sessions[0].thresholdPower.Some? && sessions[0].thresholdPower.value > 0.0
    then sessions[0].thresholdPower
    else None
  }

  /** The balance after the session step: the session's reading, normalised, when it has power. */
  function SessionBalance(sessions: seq<Session>): Option<Pair> {
    if SessionHasPower(sessions) && sessions[0].balance.Some?
    then Some(NormalizeBalance(sessions[0].balance.value))
    else None
  }

  /** The record fallback runs when the session step left the average at 0 and there are records. */
  predicate FallbackRuns(records: seq<Record>, sessions: seq<Session>) {
    SessionAverage(sessions) == 0 && |records| > 0
  }

  function AveragePowerOf(records: seq<Record>, sessions: seq<Session>): int {
    var p := Tally(records, Power);
    if FallbackRuns(records, sessions) && p.count > 0 then Round(p.left / p.count as real)
    else SessionAverage(sessions)
  }

  function BalanceOf(records: seq<Record>, sessions: seq<Session>): Option<Pair> {
    if FallbackRuns(records, sessions) && Tally(records, Power).count > 0 && Tally(records, Balance).count > 0
    then MeanPair(Tally(records, Balance))
    else SessionBalance(sessions)
  }

  function ZonesOf(records: seq<Record>, thresholdPower: Option<real>): seq<PowerZoneBalance> {
    if thresholdPower.Some? && thresholdPower.value > 0.0 && |records| > 0
    then CanonicalZoneList(records, thresholdPower.value)
    else []
  }

  /** What the engine reports for the given records and sessions. */
  function Analyze(records: seq<Record>, sessions: seq<Session>): PowerAnalysis {
    PowerAnalysis(
      AveragePowerOf(records, sessions),
      SessionThreshold(sessions),
      BalanceOf(records, sessions),
      MeanPair(Tally(records, Smoothness)),
      MeanPair(Tally(records, Torque)),
      ZonesOf(records, SessionThreshold(sessions)))
  }

  // ---- The engine ----

  /** Sum and number of the records with positive power (the `powerRecords` filter and its reduce). */
  method PowerTotals(records: seq<Record>) returns (totalPower: real, powerCount: nat)
    ensures totalPower == Tally(records, Power).left && powerCount == Tally(records, Power).count
  {
    totalPower, powerCount := 0.0, 0;
    for i := 0 to |records|
      invariant totalPower == Tally(records[..i], Power).left
      invariant powerCount == Tally(records[..i], Power).count
    {
      TallyStep(records, i, Power);
      var r := records[i];
      if HasPower(r) {
        totalPower := totalPower + r.power.value;
        powerCount := powerCount + 1;
      }
    }
    TallyWhole(records, Power);
  }

  /** Left and right balance totals and counts over the power records that carry a balance. */
  method BalanceTotals(records: seq<Record>) returns (leftTotal: real, rightTotal: real, leftCount: nat, rightCount: nat)
    ensures leftTotal == Tally(records, Balance).left && rightTotal == Tally(records, Balance).right
    ensures leftCount == rightCount == Tally(records, Balance).count
  {
    leftTotal, rightTotal, leftCount, rightCount := 0.0, 0.0, 0, 0;
    for i := 0 to |records|
      invariant leftTotal == Tally(records[..i], Balance).left
      invariant rightTotal == Tally(records[..i], Balance).right
      invariant leftCount == rightCount == Tally(records[..i], Balance).count
    {
      TallyStep(records, i, Balance);
      var r := records[i];
      if HasPower(r) && r.balance.Some? {
        var b := r.balance.value;
        if b.RightReferenced? {
          rightTotal := rightTotal + b.value;
          leftTotal := leftTotal + (100.0 - b.value);
        } else {
          leftTotal := leftTotal + b.value;
          rightTotal := rightTotal + (100.0 - b.value);
        }
        leftCount := leftCount + 1;
        rightCount := rightCount + 1;
      }
    }
    TallyWhole(records, Balance);
  }

  /** Whole-activity torque effectiveness and pedal smoothness: the rounded means over the
      records whose two sides are both present and positive, or `None` when there are none. */
  method TorqueAndSmoothness(records: seq<Record>) returns (torqueEffectiveness: Option<Pair>, pedalSmoothness: Option<Pair>)
    ensures torqueEffectiveness == MeanPair(Tally(records, Torque))
    ensures pedalSmoothness == MeanPair(Tally(records, Smoothness))
  {
    var leftTorqueTotal, rightTorqueTotal, torqueCount := 0.0, 0.0, 0;
    var leftSmoothTotal, rightSmoothTotal, smoothCount := 0.0, 0.0, 0;
    for i := 0 to |records|
      invariant Sums(leftTorqueTotal, rightTorqueTotal, torqueCount) == Tally(records[..i], Torque)
      invariant Sums(leftSmoothTotal, rightSmoothTotal, smoothCount) == Tally(records[..i], Smoothness)
    {
      TallyStep(records, i, Torque);
      TallyStep(records, i, Smoothness);
      var r := records[i];
      assert Reading(r, Torque) == TorqueSides(r) && Reading(r, Smoothness) == SmoothnessSides(r);
      assert HasTorque(r) || HasSmoothness(r) ==> HasAnyTorqueOrSmoothness(r);
      if HasAnyTorqueOrSmoothness(r) {
        if HasTorque(r) {
          leftTorqueTotal := leftTorqueTotal + r.leftTorqueEffectiveness.value;
          rightTorqueTotal := rightTorqueTotal + r.rightTorqueEffectiveness.value;
          torqueCount := torqueCount + 1;
        }
        if HasSmoothness(r) {
          leftSmoothTotal := leftSmoothTotal + r.leftPedalSmoothness.value;
          rightSmoothTotal := rightSmoothTotal + r.rightPedalSmoothness.value;
          smoothCount := smoothCount + 1;
        }
      }
    }
    TallyWhole(records, Torque);
    TallyWhole(records, Smoothness);
    torqueEffectiveness := None;
    pedalSmoothness := None;
    if torqueCount > 0 {
      torqueEffectiveness := Some(Pair(Round(leftTorqueTotal / torqueCount as real), Round(rightTorqueTotal / torqueCount as real)));
    }
    if smoothCount > 0 {
      pedalSmoothness := Some(Pair(Round(leftSmoothTotal / smoothCount as real), Round(rightSmoothTotal / smoothCount as real)));
    }
  }

  /** A record of zone `z` added to that zone's accumulator: its balance split into left and
      right shares, and its torque and smoothness when both sides are positive. */
  function Absorb(acc: ZoneAccumulator, r: Record): ZoneAccumulator
    requires r.balance.Some?
  {
    var s := Split(r.balance.value);
    var q := Add(Sums(acc.leftTorqueTotal, acc.rightTorqueTotal, acc.torqueCount), TorqueSides(r));
    var m := Add(Sums(acc.leftSmoothTotal, acc.rightSmoothTotal, acc.smoothCount), SmoothnessSides(r));
    acc.(leftTotal := acc.leftTotal + s.left, rightTotal := acc.rightTotal + s.right, count := acc.count + 1,
         leftTorqueTotal := q.left, rightTorqueTotal := q.right, torqueCount := q.count,
         leftSmoothTotal := m.left, rightSmoothTotal := m.right, smoothCount := m.count)
  }

  /** What one record does to the zone sums: a record outside zone `z` leaves them as they were. */
  lemma ZoneStep(records: seq<Record>, i: nat, z: ZoneId, t: real)
    requires i < |records|
    ensures InZone(records[i], z, t) ==>
              AccumulatorOf(records[..i + 1], z, t) == Absorb(AccumulatorOf(records[..i], z, t), records[i])
    ensures !InZone(records[i], z, t) ==> AccumulatorOf(records[..i + 1], z, t) == AccumulatorOf(records[..i], z, t)
  {
    var r := records[i];
    var b, q, m := ZoneBalance(z, t), ZoneTorque(z, t), ZoneSmoothness(z, t);
    TallyStep(records, i, b);
    TallyStep(records, i, q);
    TallyStep(records, i, m);
    var before, after := AccumulatorOf(records[..i], z, t), AccumulatorOf(records[..i + 1], z, t);
    assert Sums(before.leftTorqueTotal, before.rightTorqueTotal, before.torqueCount) == Tally(records[..i], q);
    assert Sums(before.leftSmoothTotal, before.rightSmoothTotal, before.smoothCount) == Tally(records[..i], m);
    ZoneReadings(r, z, t);
  }

  /** The zone readings of one record: its balance split, torque and smoothness inside its zone,
      nothing outside it. */
  lemma ZoneReadings(r: Record, z: ZoneId, t: real)
    ensures InZone(r, z, t) ==>
              Reading(r, ZoneBalance(z, t)) == Some(Split(r.balance.value))
              && Reading(r, ZoneTorque(z, t)) == TorqueSides(r)
              && Reading(r, ZoneSmoothness(z, t)) == SmoothnessSides(r)
    ensures !InZone(r, z, t) ==>
              Reading(r, ZoneBalance(z, t)) == None
              && Reading(r, ZoneTorque(z, t)) == None
              && Reading(r, ZoneSmoothness(z, t)) == None
  {
  }

  /** A zone seen for the first time: its sums so far are all zero, so its accumulator is the
      zone's fresh entry. */
  lemma FirstInZone(records: seq<Record>, z: ZoneId, t: real)
    requires ZoneCount(records, z, t) == 0
    ensures AccumulatorOf(records, z, t) == NewAccumulator(ZoneDefinition(z, t))
  {
    ZoneCountsBounded(records, z, t);
  }

  /** The `+=` updates of one record on its zone's entry (`zoneInfo`): the balance shares and
      count always, torque and smoothness only when both of their sides are positive. */
  method AddToEntry(zoneInfo: ZoneAccumulator, r: Record, leftPct: real, rightPct: real) returns (updated: ZoneAccumulator)
    requires r.balance.Some? && Split(r.balance.value) == Sides(leftPct, rightPct)
    ensures updated == Absorb(zoneInfo, r)
  {
    updated := zoneInfo.(leftTotal := zoneInfo.leftTotal + leftPct,
                         rightTotal := zoneInfo.rightTotal + rightPct,
                         count := zoneInfo.count + 1);
    if HasTorque(r) {
      updated := updated.(leftTorqueTotal := updated.leftTorqueTotal + r.leftTorqueEffectiveness.value,
                          rightTorqueTotal := updated.rightTorqueTotal + r.rightTorqueEffectiveness.value,
                          torqueCount := updated.torqueCount + 1);
    }
    if HasSmoothness(r) {
      updated := updated.(leftSmoothTotal := updated.leftSmoothTotal + r.leftPedalSmoothness.value,
                          rightSmoothTotal := updated.rightSmoothTotal + r.rightPedalSmoothness.value,
                          smoothCount := updated.smoothCount + 1);
    }
  }

  /** The zone map and insertion order after one record of the zone pass: a record with positive
      power and a balance reading is added to its zone's entry (a fresh one, appended to the order,
      when the zone has none yet); any other record changes nothing. */
  predicate RecordAdded(zoneData: map<ZoneId, ZoneAccumulator>, order: seq<ZoneId>, r: Record, t: real,
                        zoneData': map<ZoneId, ZoneAccumulator>, order': seq<ZoneId>)
    requires t > 0.0
  {
    if HasPower(r) && r.balance.Some? then
      var zone := GetPowerZone(r.power.value, t);
      Stored(zoneData, order, zone.zone, NewAccumulator(zone), r, zoneData', order')
    else
      zoneData' == zoneData && order' == order
  }

  /** Record `r` added to zone `z`'s entry, which starts as `initial` (appended to the order) when
      the map has no entry for `z` yet. */
  predicate Stored(zoneData: map<ZoneId, ZoneAccumulator>, order: seq<ZoneId>, z: ZoneId, initial: ZoneAccumulator,
                   r: Record, zoneData': map<ZoneId, ZoneAccumulator>, order': seq<ZoneId>)
    requires r.balance.Some?
  {
    var before := if z in zoneData then zoneData[z] else initial;
    zoneData' == zoneData[z := Absorb(before, r)]
    && order' == (if z in zoneData then order else order + [z])
  }

  /** One step of the zone pass (`data.records.forEach`): a record with positive power and a
      balance reading is classified, its zone gets a fresh entry if it has none yet (appended to
      the insertion order), and the record is added to that entry; any other record changes nothing. */
  method AddRecord(zoneData: map<ZoneId, ZoneAccumulator>, order: seq<ZoneId>, r: Record, t: real)
    returns (zoneData': map<ZoneId, ZoneAccumulator>, order': seq<ZoneId>)
    requires t > 0.0
    ensures RecordAdded(zoneData, order, r, t, zoneData', order')
  {
    zoneData', order' := zoneData, order;
    if HasPower(r) && r.balance.Some? {
      var zone := GetPowerZone(r.power.value, t);
      var balance := r.balance.value;
      var leftPct := if balance.RightReferenced? then 100.0 - balance.value else balance.value;
      var rightPct := if balance.RightReferenced? then balance.value else 100.0 - balance.value;
      assert Split(balance) == Sides(leftPct, rightPct);
      if zone.zone !in zoneData' {
        zoneData' := zoneData'[zone.zone := NewAccumulator(zone)];
        order' := order' + [zone.zone];
      }
      var zoneInfo := zoneData'[zone.zone];
      zoneInfo := AddToEntry(zoneInfo, r, leftPct, rightPct);
      AddedToZone(zoneData, order, zone.zone, NewAccumulator(zone), r, zoneData', order', zoneInfo);
      zoneData' := zoneData'[zone.zone := zoneInfo];
    }
  }

  /** Once zone `z` has an entry (`initial`, appended to the order, when it had none), storing that
      entry updated by the record is the step `Stored` describes. */
  lemma AddedToZone(zoneData: map<ZoneId, ZoneAccumulator>, order: seq<ZoneId>, z: ZoneId, initial: ZoneAccumulator,
                    r: Record, withEntry: map<ZoneId, ZoneAccumulator>, order': seq<ZoneId>, zoneInfo: ZoneAccumulator)
    requires r.balance.Some?
    requires if z in zoneData then withEntry == zoneData && order' == order
             else withEntry == zoneData[z := initial] && order' == order + [z]
    requires z in withEntry && zoneInfo == Absorb(withEntry[z], r)
    ensures Stored(zoneData, order, z, initial, r, withEntry[z := zoneInfo], order')
  {
    assert withEntry[z := zoneInfo] == zoneData[z := zoneInfo];
  }

  /** The zone map (`zoneData`) filled by one pass over the records, and the order in which its
      keys were first inserted (the iteration order of a JavaScript `Map`). A zone has a key exactly
      when a record of it was seen, and its value holds that zone's sums. */
  method AccumulateZones(records: seq<Record>, t: real) returns (zoneData: map<ZoneId, ZoneAccumulator>, order: seq<ZoneId>)
    requires t > 0.0
    ensures forall z :: z in zoneData <==> ZoneCount(records, z, t) > 0
    ensures forall z :: z in zoneData ==> zoneData[z] == AccumulatorOf(records, z, t)
    ensures forall z :: z in order <==> z in zoneData
    ensures NoDuplicates(order)
  {
    zoneData, order := map[], [];
    for i := 0 to |records|
      invariant forall z :: z in zoneData <==> ZoneCount(records[..i], z, t) > 0
      invariant forall z :: z in zoneData ==> zoneData[z] == AccumulatorOf(records[..i], z, t)
      invariant forall z :: z in order <==> z in zoneData
      invariant NoDuplicates(order)
    {
      var zoneData', order' := AddRecord(zoneData, order, records[i], t);
      ZonePassStep(records, i, t, zoneData, order, zoneData', order');
      zoneData, order := zoneData', order';
    }
    assert records[..|records|] == records;
  }

  /** The invariant of the zone pass survives one more record. */
  lemma ZonePassStep(records: seq<Record>, i: nat, t: real,
                     zoneData: map<ZoneId, ZoneAccumulator>, order: seq<ZoneId>,
                     zoneData': map<ZoneId, ZoneAccumulator>, order': seq<ZoneId>)
    requires i < |records| && t > 0.0
    requires forall z :: z in zoneData <==> ZoneCount(records[..i], z, t) > 0
    requires forall z :: z in zoneData ==> zoneData[z] == AccumulatorOf(records[..i], z, t)
    requires forall z :: z in order <==> z in zoneData
    requires NoDuplicates(order)
    requires RecordAdded(zoneData, order, records[i], t, zoneData', order')
    ensures forall z :: z in zoneData' <==> ZoneCount(records[..i + 1], z, t) > 0
    ensures forall z :: z in zoneData' ==> zoneData'[z] == AccumulatorOf(records[..i + 1], z, t)
    ensures forall z :: z in order' <==> z in zoneData'
    ensures NoDuplicates(order')
  {
    var r := records[i];
    forall z: ZoneId
      ensures z in zoneData' <==> ZoneCount(records[..i + 1], z, t) > 0
      ensures z in zoneData' ==> zoneData'[z] == AccumulatorOf(records[..i + 1], z, t)
    {
      ZoneStep(records, i, z, t);
      if HasPower(r) && r.balance.Some? && GetPowerZone(r.power.value, t).zone == z {
        ZonePassKey(records, i, t, zoneData, zoneData', z);
      } else {
        assert !InZone(r, z, t);
        assert ZoneCount(records[..i + 1], z, t) == ZoneCount(records[..i], z, t);
        assert (z in zoneData' <==> z in zoneData) && (z in zoneData ==> zoneData'[z] == zoneData[z]);
      }
    }
    ZonePassOrder(zoneData, order, r, t, zoneData', order');
  }

  /** The insertion order keeps listing each key of the zone map once. */
  lemma ZonePassOrder(zoneData: map<ZoneId, ZoneAccumulator>, order: seq<ZoneId>, r: Record, t: real,
                      zoneData': map<ZoneId, ZoneAccumulator>, order': seq<ZoneId>)
    requires t > 0.0
    requires forall z :: z in order <==> z in zoneData
    requires NoDuplicates(order)
    requires RecordAdded(zoneData, order, r, t, zoneData', order')
    ensures forall z :: z in order' <==> z in zoneData'
    ensures NoDuplicates(order')
  {
    if HasPower(r) && r.balance.Some? {
      var zone := GetPowerZone(r.power.value, t).zone;
      if zone !in zoneData {
        assert order' == order + [zone];
        assert forall j :: 0 <= j < |order| ==> order'[j] == order[j];
      }
    }
  }

  /** The entry of the record's own zone after the step holds that zone's sums. */
  lemma ZonePassKey(records: seq<Record>, i: nat, t: real,
                    zoneData: map<ZoneId, ZoneAccumulator>, zoneData': map<ZoneId, ZoneAccumulator>, zone: ZoneId)
    requires i < |records| && t > 0.0
    requires HasPower(records[i]) && records[i].balance.Some?
    requires zone == GetPowerZone(records[i].power.value, t).zone
    requires forall z :: z in zoneData <==> ZoneCount(records[..i], z, t) > 0
    requires forall z :: z in zoneData ==> zoneData[z] == AccumulatorOf(records[..i], z, t)
    requires zoneData' == zoneData[zone := Absorb(if zone in zoneData then zoneData[zone] else NewAccumulator(GetPowerZone(records[i].power.value, t)), records[i])]
    ensures zoneData'[zone] == AccumulatorOf(records[..i + 1], zone, t)
    ensures ZoneCount(records[..i + 1], zone, t) > 0
  {
    ZoneStep(records, i, zone, t);
    if zone !in zoneData {
      FirstInZone(records[..i], zone, t);
    }
  }

  /** `Array.from(zoneData.entries()).filter(count > 0).map(...)` over the keys `keys`, in their order. */
  function FinalizedEntries(zoneData: map<ZoneId, ZoneAccumulator>, keys: seq<ZoneId>): seq<PowerZoneBalance>
    requires forall z :: z in keys ==> z in zoneData
  {
    if keys == [] then []
    else
      var rest := FinalizedEntries(zoneData, keys[..|keys| - 1]);
      var z := keys[|keys| - 1];
      if zoneData[z].count > 0 then rest + [Finalize(z, zoneData[z])] else rest
  }

  /** The filtered and finalised entries: one per key with samples, that key's accumulator finalised. */
  lemma {:induction false} FinalizedEntriesMembers(zoneData: map<ZoneId, ZoneAccumulator>, keys: seq<ZoneId>)
    requires forall z :: z in keys ==> z in zoneData
    ensures forall e :: e in FinalizedEntries(zoneData, keys) ==>
              e.zone in keys && zoneData[e.zone].count > 0 && e == Finalize(e.zone, zoneData[e.zone])
    ensures forall z :: z in keys && zoneData[z].count > 0 ==> Finalize(z, zoneData[z]) in FinalizedEntries(zoneData, keys)
  {
    if keys != [] {
      var front := keys[..|keys| - 1];
      assert forall z :: z in front ==> z in keys;
      FinalizedEntriesMembers(zoneData, front);
      assert forall z :: z in keys ==> z in front || z == keys[|keys| - 1];
    }
  }

  /** Keys listed once give entries listed once. */
  lemma {:induction false} FinalizedEntriesDistinct(zoneData: map<ZoneId, ZoneAccumulator>, keys: seq<ZoneId>)
    requires forall z :: z in keys ==> z in zoneData
    requires NoDuplicates(keys)
    ensures NoDuplicates(FinalizedEntries(zoneData, keys))
  {
    if keys != [] {
      var front, z := keys[..|keys| - 1], keys[|keys| - 1];
      assert forall x :: x in front ==> x in keys;
      assert NoDuplicates(front);
      FinalizedEntriesDistinct(zoneData, front);
      if zoneData[z].count > 0 {
        var rest := FinalizedEntries(zoneData, front);
        FinalizedEntriesMembers(zoneData, front);
        assert z !in front;
        forall k | 0 <= k < |rest| ensures rest[k] != Finalize(z, zoneData[z]) {
          assert rest[k] in rest;
        }
        AppendDistinct(rest, Finalize(z, zoneData[z]));
      }
    }
  }

  lemma AppendDistinct<T>(s: seq<T>, x: T)
    requires NoDuplicates(s) && forall k :: 0 <= k < |s| ==> s[k] != x
    ensures NoDuplicates(s + [x])
  {
  }

  /** The entries of the zone map as the engine lists them: its keys in insertion order, filtered
      to those with samples, each finalised. */
  method ZoneEntries(zoneData: map<ZoneId, ZoneAccumulator>, order: seq<ZoneId>) returns (entries: seq<PowerZoneBalance>)
    requires forall z :: z in order ==> z in zoneData
    ensures entries == FinalizedEntries(zoneData, order)
  {
    entries := [];
    for i := 0 to |order|
      invariant entries == FinalizedEntries(zoneData, order[..i])
    {
      assert order[..i + 1][..i] == order[..i];
      var zone := order[i];
      var data := zoneData[zone];
      if data.count > 0 {
        entries := entries + [Finalize(zone, data)];
      }
    }
    assert order[..|order|] == order;
  }

  /** The engine's computation of `Analyze`. */
  method ParseFitData(records: seq<Record>, sessions: seq<Session>) returns (analysis: PowerAnalysis)
    ensures analysis == Analyze(records, sessions)
  {
    var averagePower := 0;
    var thresholdPower: Option<real> := None;
    var leftRightBalance: Option<Pair> := None;
    var pedalSmoothness: Option<Pair> := None;
    var torqueEffectiveness: Option<Pair> := None;
    var powerZoneBalances: seq<PowerZoneBalance> := [];

    // The session summary first.
    if |sessions| > 0 {
      var session := sessions[0];
      if session.avgPower.Some? && session.avgPower.value > 0.0 {
        averagePower := Round(session.avgPower.value);
        if session.thresholdPower.Some? && session.thresholdPower.value > 0.0 {
          thresholdPower := session.thresholdPower;
        }
        if session.balance.Some? {
          leftRightBalance := Some(NormalizeBalance(session.balance.value));
        }
      }
    }

    // The records, when the session did not give an average.
    if averagePower == 0 && |records| > 0 {
      var totalPower, powerCount := PowerTotals(records);
      if powerCount > 0 {
        averagePower := Round(totalPower / powerCount as real);
        var leftTotal, rightTotal, leftCount, rightCount := BalanceTotals(records);
        if leftCount > 0 && rightCount > 0 {
          leftRightBalance := Some(Pair(Round(leftTotal / leftCount as real), Round(rightTotal / rightCount as real)));
        }
      }
    }

    if |records| > 0 {
      torqueEffectiveness, pedalSmoothness := TorqueAndSmoothness(records);
    } else {
      assert Tally(records, Torque).count == 0 && Tally(records, Smoothness).count == 0;
    }

    if thresholdPower.Some? && thresholdPower.value > 0.0 && |records| > 0 {
      var t := thresholdPower.value;
      var zoneData, order := AccumulateZones(records, t);
      var entries := ZoneEntries(zoneData, order);
      FinalizedEntriesMembers(zoneData, order);
      FinalizedEntriesDistinct(zoneData, order);
      SortedFoldIsCanonical(records, t, zoneData, entries);
      powerZoneBalances := SortByZone(entries);
    }

    analysis := PowerAnalysis(averagePower, thresholdPower, leftRightBalance, pedalSmoothness,
                              torqueEffectiveness, powerZoneBalances);
  }

  // ---- Properties of the analysis ----

  /** A session whose average power rounds to at least 1 W decides the average power, the
      threshold power (kept only when positive) and the balance; the records are not consulted. */
  lemma SessionPrecedence(records: seq<Record>, sessions: seq<Session>)
    requires |sessions| > 0 && sessions[0].avgPower.Some? && sessions[0].avgPower.value >= 0.5
    ensures Analyze(records, sessions).averagePower == Round(sessions[0].avgPower.value) >= 1
    ensures Analyze(records, sessions).thresholdPower
         == (if sessions[0].thresholdPower.Some? && sessions[0].thresholdPower.value > 0.0
             then sessions[0].thresholdPower else None)
    ensures Analyze(records, sessions).leftRightBalance
         == (if sessions[0].balance.Some? then Some(NormalizeBalance(sessions[0].balance.value)) else None)
  {
    RoundMonotone(0.5, sessions[0].avgPower.value);
    assert Round(0.5) == 1;
  }

  /** A session average in (0, 0.5) rounds to 0, so the record fallback runs: average power and
      balance come from the records, yet the session's threshold power is kept, and its balance is
      kept when no power record carries one. */
  lemma TinySessionAverageFallsBack(records: seq<Record>, sessions: seq<Session>)
    requires |sessions| > 0 && sessions[0].avgPower.Some?
    requires 0.0 < sessions[0].avgPower.value < 0.5
    requires Tally(records, Power).count > 0
    ensures Analyze(records, sessions).averagePower
         == Round(Tally(records, Power).left / Tally(records, Power).count as real)
    ensures Analyze(records, sessions).thresholdPower
         == (if sessions[0].thresholdPower.Some? && sessions[0].thresholdPower.value > 0.0
             then sessions[0].thresholdPower else None)
    ensures Analyze(records, sessions).leftRightBalance
         == (if Tally(records, Balance).count > 0 then MeanPair(Tally(records, Balance))
             else if sessions[0].balance.Some? then Some(NormalizeBalance(sessions[0].balance.value))
             else None)
  {
    assert Round(sessions[0].avgPower.value) == 0;
  }

  /** Without a session average the records decide: average power is the rounded mean power of the
      records with positive power (0 when there are none), balance the rounded per-side mean over
      those that carry a balance (absent when none), and there is no threshold and no zone list. */
  lemma RecordFallback(records: seq<Record>, sessions: seq<Session>)
    requires !SessionHasPower(sessions)
    ensures Analyze(records, sessions).averagePower
         == (if Tally(records, Power).count > 0
             then Round(Tally(records, Power).left / Tally(records, Power).count as real) else 0)
    ensures Analyze(records, sessions).leftRightBalance == MeanPair(Tally(records, Balance))
    ensures Analyze(records, sessions).thresholdPower == None
    ensures Analyze(records, sessions).powerZoneBalances == []
  {
    BalanceNeedsPower(records);
  }

  /** Threshold power is reported only from a session with positive average power, and only when
      positive itself; a zone list is reported only with a threshold power, and only when some
      record has positive power and a balance reading. */
  lemma ThresholdAndZonesSource(records: seq<Record>, sessions: seq<Session>)
    ensures Analyze(records, sessions).thresholdPower.Some? <==>
              SessionHasPower(sessions) && sessions[0].thresholdPower.Some? && sessions[0].thresholdPower.value > 0.0
    ensures Analyze(records, sessions).thresholdPower.Some? ==> Analyze(records, sessions).thresholdPower.value > 0.0
    ensures Analyze(records, sessions).powerZoneBalances != [] ==>
              Analyze(records, sessions).thresholdPower.Some? && Tally(records, Balance).count > 0
  {
    var a := Analyze(records, sessions);
    if a.powerZoneBalances != [] {
      var t := a.thresholdPower.value;
      var e := a.powerZoneBalances[0];
      assert e in CanonicalZoneList(records, t);
      CanonicalZoneListFacts(records, t);
      ZoneCountsBounded(records, e.zone, t);
    }
  }

  /** Whole-activity torque effectiveness is absent exactly when no record has both sides present
      and positive, whatever its power; the same for pedal smoothness. */
  lemma TorqueAndSmoothnessPresence(records: seq<Record>, sessions: seq<Session>)
    ensures Analyze(records, sessions).torqueEffectiveness.None? <==>
              forall i :: 0 <= i < |records| ==> !HasTorque(records[i])
    ensures Analyze(records, sessions).pedalSmoothness.None? <==>
              forall i :: 0 <= i < |records| ==> !HasSmoothness(records[i])
  {
    TallyCountZero(records, Torque);
    TallyCountZero(records, Smoothness);
  }

  /** Torque and smoothness are averaged independently: changing only the torque fields of the
      records leaves the reported smoothness as it was, and the other way round. */
  lemma TorqueAndSmoothnessIndependent(a: seq<Record>, b: seq<Record>, sessions: seq<Session>)
    requires |a| == |b|
    ensures (forall i :: 0 <= i < |a| ==>
               a[i].leftPedalSmoothness == b[i].leftPedalSmoothness
               && a[i].rightPedalSmoothness == b[i].rightPedalSmoothness)
            ==> Analyze(a, sessions).pedalSmoothness == Analyze(b, sessions).pedalSmoothness
    ensures (forall i :: 0 <= i < |a| ==>
               a[i].leftTorqueEffectiveness == b[i].leftTorqueEffectiveness
               && a[i].rightTorqueEffectiveness == b[i].rightTorqueEffectiveness)
            ==> Analyze(a, sessions).torqueEffectiveness == Analyze(b, sessions).torqueEffectiveness
  {
    if forall i :: 0 <= i < |a| ==>
         a[i].leftPedalSmoothness == b[i].leftPedalSmoothness && a[i].rightPedalSmoothness == b[i].rightPedalSmoothness {
      TallySameReadings(a, b, Smoothness);
    }
    if forall i :: 0 <= i < |a| ==>
         a[i].leftTorqueEffectiveness == b[i].leftTorqueEffectiveness && a[i].rightTorqueEffectiveness == b[i].rightTorqueEffectiveness {
      TallySameReadings(a, b, Torque);
    }
  }

  /** A reported balance adds up to 100, or to 101 when both rounded sides were exact halves,
      whether it came from the session or from the records. */
  lemma BalanceAddsUp(records: seq<Record>, sessions: seq<Session>)
    requires Analyze(records, sessions).leftRightBalance.Some?
    ensures 100 <= Analyze(records, sessions).leftRightBalance.value.left
                 + Analyze(records, sessions).leftRightBalance.value.right <= 101
  {
    if FallbackRuns(records, sessions) && Tally(records, Power).count > 0 && Tally(records, Balance).count > 0 {
      BalanceTotalsSplitHundred(records, Balance);
      MeanBalanceSums(Tally(records, Balance));
    }
  }

  /** With a threshold power the zone list is Z1..Z6 order without repeats; it lists zone `z`
      exactly when some record falls in it, with that zone's entry; and its sample counts add up
      to the number of records with positive power and a balance reading. */
  lemma ZoneListContents(records: seq<Record>, sessions: seq<Session>)
    requires SessionThreshold(sessions).Some?
    ensures StrictlySortedByZone(Analyze(records, sessions).powerZoneBalances)
    ensures forall e :: e in Analyze(records, sessions).powerZoneBalances ==>
              ZoneCount(records, e.zone, SessionThreshold(sessions).value) > 0
              && e == Entry(records, e.zone, SessionThreshold(sessions).value)
    ensures forall z :: ZoneCount(records, z, SessionThreshold(sessions).value) > 0 ==>
              Entry(records, z, SessionThreshold(sessions).value) in Analyze(records, sessions).powerZoneBalances
    ensures SampleCountTotal(Analyze(records, sessions).powerZoneBalances) == Tally(records, Balance).count
  {
    var t := SessionThreshold(sessions).value;
    if records == [] {
      assert forall z :: ZoneCount(records, z, t) == 0;
    } else {
      CanonicalZoneListFacts(records, t);
      CanonicalSampleTotal(records, t);
    }
  }

  /** The analysis depends on the records only as a collection: reordering them changes nothing,
      the zone list included. */
  lemma OrderIndependence(a: seq<Record>, b: seq<Record>, sessions: seq<Session>)
    requires multiset(a) == multiset(b)
    ensures Analyze(a, sessions) == Analyze(b, sessions)
  {
    assert |a| == |multiset(a)| == |multiset(b)| == |b|;
    TallyPermutation(a, b, Power);
    TallyPermutation(a, b, Balance);
    TallyPermutation(a, b, Torque);
    TallyPermutation(a, b, Smoothness);
    if SessionThreshold(sessions).Some? {
      CanonicalPermutation(a, b, SessionThreshold(sessions).value);
    }
  }

  /** No records and no sessions: zero average power, nothing else. */
  lemma EmptyInput()
    ensures Analyze([], []) == PowerAnalysis(0, None, None, None, None, [])
  {
  }
}
