/** The zone classifier `getPowerZone`: six bands of effort, as percentages of threshold power. */
module PowerZones {
  import opened Numeric
  import opened Text

  datatype ZoneId = Z1 | Z2 | Z3 | Z4 | Z5 | Z6 {

    /** The zone's number, 1 to 6. */
    function Index(): (i: nat)
      ensures 1 <= i <= 6
    {
      match this
      case Z1 => 1 case Z2 => 2 case Z3 => 3 case Z4 => 4 case Z5 => 5 case Z6 => 6
    }

    /** The zone's key in the zone map and in the output: "Z1" to "Z6". */
    function Name(): (s: string)
      ensures |s| == 2 && s[0] == 'Z' && IsDigit(s[1]) && DigitValue(s[1]) == Index()
    {
      "Z" + [DigitChar(Index())]
    }
  }

  /** The record `getPowerZone` returns. */
  datatype ZoneInfo = ZoneInfo(zone: ZoneId, description: string, range: string, minPower: int, maxPower: int)

  /** The `maxPower` of the open-ended top zone. */
  const UnboundedMaxPower: int := 9999

  /** Power as a percentage of threshold power. */
  function Percentage(power: real, thresholdPower: real): real
    requires thresholdPower > 0.0
  {
    (power / thresholdPower) * 100.0
  }

  /** The classifier, one branch per zone, lower bound inclusive. Its contract ties it to the
      zone table below: the percentage lies in the chosen zone's band, and the record returned
      is that zone's row of the table. */
  function GetPowerZone(power: real, thresholdPower: real): (z: ZoneInfo)
    requires thresholdPower > 0.0
    ensures InBand(z.zone, Percentage(power, thresholdPower))
    ensures z == ZoneDefinition(z.zone, thresholdPower)
  {
    var percentage := Percentage(power, thresholdPower);
    if percentage < 55.0 then
      ZoneInfo(Z1, "Active Recovery", "< 55%", 0, Round(thresholdPower * 0.55))
    else if percentage < 75.0 then
      ZoneInfo(Z2, "Endurance", "55-75%", Round(thresholdPower * 0.55), Round(thresholdPower * 0.75))
    else if percentage < 90.0 then
      ZoneInfo(Z3, "Tempo", "75-90%", Round(thresholdPower * 0.75), Round(thresholdPower * 0.90))
    else if percentage < 105.0 then
      ZoneInfo(Z4, "Lactate Threshold", "90-105%", Round(thresholdPower * 0.90), Round(thresholdPower * 1.05))
    else if percentage < 120.0 then
      ZoneInfo(Z5, "VO2 Max", "105-120%", Round(thresholdPower * 1.05), Round(thresholdPower * 1.20))
    else
      ZoneInfo(Z6, "Anaerobic/Neuromuscular", "> 120%", Round(thresholdPower * 1.20), UnboundedMaxPower)
  }

  // ---- The zone table: the six zones as bands of percentages of threshold power ----

  /** Lower bound of a zone, in percent of threshold power (Z1 has none). */
  function LowerPercent(z: ZoneId): real
    requires z != Z1
  {
    match z
    case Z2 => 55.0 case Z3 => 75.0 case Z4 => 90.0 case Z5 => 105.0 case Z6 => 120.0
  }

  /** Upper bound of a zone, in percent of threshold power (Z6 has none). */
  function UpperPercent(z: ZoneId): real
    requires z != Z6
  {
    match z
    case Z1 => 55.0 case Z2 => 75.0 case Z3 => 90.0 case Z4 => 105.0 case Z5 => 120.0
  }

  /** The band of a zone: at least its lower bound, below its upper bound. */
  predicate InBand(z: ZoneId, percentage: real) {
    (z == Z1 || LowerPercent(z) <= percentage) && (z == Z6 || percentage < UpperPercent(z))
  }

  function Description(z: ZoneId): string {
    match z
    case Z1 => "Active Recovery"
    case Z2 => "Endurance"
    case Z3 => "Tempo"
    case Z4 => "Lactate Threshold"
    case Z5 => "VO2 Max"
    case Z6 => "Anaerobic/Neuromuscular"
  }

  function PercentText(z: ZoneId): string {
    match z
    case Z1 => "< 55%"
    case Z2 => "55-75%"
    case Z3 => "75-90%"
    case Z4 => "90-105%"
    case Z5 => "105-120%"
    case Z6 => "> 120%"
  }

  /** A zone's row: watt bounds are the percentage bounds of threshold power, rounded;
      Z1 starts at 0 and Z6 ends at the sentinel 9999. */
  function ZoneDefinition(z: ZoneId, thresholdPower: real): ZoneInfo {
    ZoneInfo(z, Description(z), PercentText(z),
             if z == Z1 then 0 else Round(thresholdPower * LowerPercent(z) / 100.0),
             if z == Z6 then UnboundedMaxPower else Round(thresholdPower * UpperPercent(z) / 100.0))
  }

  /** The zone after `z`. */
  function Next(z: ZoneId): (n: ZoneId)
    requires z != Z6
    ensures n.Index() == z.Index() + 1
  {
    match z
    case Z1 => Z2 case Z2 => Z3 case Z3 => Z4 case Z4 => Z5 case Z5 => Z6
  }

  // ---- Properties of the classifier ----

  /** The bands do not overlap: a percentage lies in exactly one of them. */
  lemma BandsDisjoint(z: ZoneId, w: ZoneId, percentage: real)
    requires InBand(z, percentage) && InBand(w, percentage)
    ensures z == w
  {
  }

  /** The classifier picks `z` exactly when the percentage is in `z`'s band. */
  lemma ClassifyIff(power: real, thresholdPower: real, z: ZoneId)
    requires thresholdPower > 0.0
    ensures GetPowerZone(power, thresholdPower).zone == z <==> InBand(z, Percentage(power, thresholdPower))
  {
    var actual := GetPowerZone(power, thresholdPower).zone;
    if InBand(z, Percentage(power, thresholdPower)) {
      BandsDisjoint(z, actual, Percentage(power, thresholdPower));
    }
  }

  /** Comparing the percentage with a bound is comparing the power with that share of threshold power. */
  lemma PercentageBelow(power: real, thresholdPower: real, bound: real)
    requires thresholdPower > 0.0
    ensures Percentage(power, thresholdPower) < bound <==> power < thresholdPower * bound / 100.0
  {
    var q := power / thresholdPower;
    assert power == q * thresholdPower;
    assert thresholdPower * bound / 100.0 == (bound / 100.0) * thresholdPower;
    if q * 100.0 < bound {
      assert q < bound / 100.0;
      assert q * thresholdPower < (bound / 100.0) * thresholdPower;
    } else {
      assert q >= bound / 100.0;
      assert q * thresholdPower >= (bound / 100.0) * thresholdPower;
    }
  }

  /** The classification stated in watts: `z` is chosen exactly when the power is at least
      `z`'s lower share of threshold power and below its upper share. */
  lemma ClassifyInWatts(power: real, thresholdPower: real, z: ZoneId)
    requires thresholdPower > 0.0
    ensures GetPowerZone(power, thresholdPower).zone == z <==>
      (z == Z1 || thresholdPower * LowerPercent(z) / 100.0 <= power) &&
      (z == Z6 || power < thresholdPower * UpperPercent(z) / 100.0)
  {
    ClassifyIff(power, thresholdPower, z);
    if z != Z1 {
      PercentageBelow(power, thresholdPower, LowerPercent(z));
    }
    if z != Z6 {
      PercentageBelow(power, thresholdPower, UpperPercent(z));
    }
  }

  /** More power never means a lower zone. */
  lemma ClassifyMonotone(p: real, q: real, thresholdPower: real)
    requires thresholdPower > 0.0 && p <= q
    ensures GetPowerZone(p, thresholdPower).zone.Index() <= GetPowerZone(q, thresholdPower).zone.Index()
  {
    assert p / thresholdPower <= q / thresholdPower by {
      assert p / thresholdPower * thresholdPower == p;
      assert q / thresholdPower * thresholdPower == q;
    }
    assert Percentage(p, thresholdPower) <= Percentage(q, thresholdPower);
  }

  /** The watt ranges tile the axis: each zone's minimum is the previous zone's maximum, Z1 starts
      at 0, the bounded zones have minimum at most maximum, and Z6 ends at the sentinel. */
  lemma ZoneWattBounds(thresholdPower: real, z: ZoneId)
    requires thresholdPower > 0.0
    ensures ZoneDefinition(Z1, thresholdPower).minPower == 0
    ensures ZoneDefinition(Z6, thresholdPower).maxPower == UnboundedMaxPower
    ensures z != Z6 ==> ZoneDefinition(Next(z), thresholdPower).minPower == ZoneDefinition(z, thresholdPower).maxPower
    ensures z != Z6 ==> 0 <= ZoneDefinition(z, thresholdPower).minPower <= ZoneDefinition(z, thresholdPower).maxPower
  {
    if z != Z6 {
      assert 0.0 <= thresholdPower * UpperPercent(z) / 100.0;
      if z != Z1 {
        assert 0.0 <= thresholdPower * LowerPercent(z) / 100.0;
        assert thresholdPower * LowerPercent(z) / 100.0 <= thresholdPower * UpperPercent(z) / 100.0;
        RoundMonotone(thresholdPower * LowerPercent(z) / 100.0, thresholdPower * UpperPercent(z) / 100.0);
      }
      RoundMonotone(0.0, thresholdPower * UpperPercent(z) / 100.0);
    }
  }

  /** Zone names sort the same way as zone numbers. */
  lemma NameOrderIsIndexOrder(z: ZoneId, w: ZoneId)
    ensures StringLess(z.Name(), w.Name()) <==> z.Index() < w.Index()
  {
    var a, b := z.Name(), w.Name();
    assert a[1..] == [a[1]] && b[1..] == [b[1]];
    assert [a[1]][1..] == [] && [b[1]][1..] == [];
    assert StringLess(a, b) == StringLess([a[1]], [b[1]]);
    assert StringLess([a[1]], [b[1]]) == (a[1] < b[1]);
    assert a[1] < b[1] <==> DigitValue(a[1]) < DigitValue(b[1]);
  }

  // ---- The rendered watt range ----

  /** `${minPower}-${maxPower === 9999 ? maxPower + '+' : maxPower}W` */
  function RangeLabel(minPower: int, maxPower: int): (s: string)
    ensures EndsWith(s, "+W") <==> maxPower == UnboundedMaxPower
    ensures StartsWith(s, IntToString(minPower) + "-")
    ensures var k, n := |IntToString(minPower)| + 1, if maxPower == UnboundedMaxPower then 2 else 1;
            k + n <= |s| && s[k..|s| - n] == IntToString(maxPower)
    ensures s[|s| - 1] == 'W'
  {
    var top := if maxPower == UnboundedMaxPower then IntToString(maxPower) + "+" else IntToString(maxPower);
    var s := IntToString(minPower) + "-" + top + "W";
    LabelParts(IntToString(minPower), IntToString(maxPower), maxPower == UnboundedMaxPower);
    s
  }

  /** The pieces of a rendered range: the minimum and '-', the maximum, then "+W" or "W". */
  lemma LabelParts(lo: string, hi: string, open: bool)
    requires |hi| >= 1 && IsDigit(hi[|hi| - 1])
    ensures var s := lo + "-" + (if open then hi + "+" else hi) + "W";
            var n := if open then 2 else 1;
            StartsWith(s, lo + "-")
            && |lo| + 1 + n <= |s| && s[|lo| + 1..|s| - n] == hi
            && (EndsWith(s, "+W") <==> open)
  {
    var head := lo + "-";
    var mark := if open then "+W" else "W";
    var s := lo + "-" + (if open then hi + "+" else hi) + "W";
    assert s == head + hi + mark;
    Middle(head, hi, mark);
    assert s == head + (hi + mark);
    StartsWithConcat(head, hi + mark);
    assert s[|s| - 1] == 'W';
    assert s[|s| - 2] == (if open then '+' else hi[|hi| - 1]);
    EndsWithTwo(s, '+', 'W');
    assert "+W" == ['+', 'W'];
  }

  /** Z6's range reads "<min>-9999+W". */
  lemma TopZoneLabel(thresholdPower: real)
    ensures RangeLabel(ZoneDefinition(Z6, thresholdPower).minPower, ZoneDefinition(Z6, thresholdPower).maxPower)
         == IntToString(Round(thresholdPower * 1.20)) + "-9999+W"
  {
    var t := thresholdPower;
    var min := Round(t * 1.20);
    assert t * LowerPercent(Z6) / 100.0 == t * 1.20;
    assert ZoneDefinition(Z6, t).minPower == min;
    SentinelText();
    assert RangeLabel(min, UnboundedMaxPower) == IntToString(min) + "-" + ("9999" + "+") + "W";
  }

  /** The sentinel renders as "9999". */
  lemma SentinelText()
    ensures IntToString(UnboundedMaxPower) == "9999"
  {
    assert NatToString(9) == "9";
    assert NatToString(99) == NatToString(9) + "9";
    assert NatToString(999) == NatToString(99) + "9";
    assert NatToString(9999) == NatToString(999) + "9";
  }

  /** A bounded zone whose rounded maximum happens to equal the sentinel is rendered as open-ended
      too: with threshold power 9523 W, 9000 W falls in Z4, whose maximum rounds to 9999. */
  lemma SentinelOnBoundedZone()
    ensures GetPowerZone(9000.0, 9523.0).zone == Z4
    ensures GetPowerZone(9000.0, 9523.0).maxPower == UnboundedMaxPower
    ensures EndsWith(RangeLabel(GetPowerZone(9000.0, 9523.0).minPower, GetPowerZone(9000.0, 9523.0).maxPower), "+W")
  {
    PercentageBelow(9000.0, 9523.0, 90.0);
    PercentageBelow(9000.0, 9523.0, 105.0);
    assert Round(9523.0 * 1.05) == 9999;
  }

  /** The boundary cases for threshold power 200 W: 109 W is 54.5 %, 110 W is 55 %,
      149 W is 74.5 %, 150 W is 75 %, 240 W is 120 %. */
  lemma BoundaryExamples()
    ensures GetPowerZone(109.0, 200.0).zone == Z1
    ensures GetPowerZone(110.0, 200.0).zone == Z2
    ensures GetPowerZone(149.0, 200.0).zone == Z2
    ensures GetPowerZone(150.0, 200.0).zone == Z3
    ensures GetPowerZone(240.0, 200.0).zone == Z6
  {
  }
}
