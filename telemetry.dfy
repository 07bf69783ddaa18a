/** The decoded telemetry the engine reads, and the normaliser that turns a polarity-encoded
    balance reading into left and right percentages. */
module Telemetry {
  import opened Optional
  import opened Numeric

  /** The decoder's `left_right_balance: {value, right}`: `right` says which leg `value` is the
      share of, so the reading is one of two cases. */
  datatype Balance = LeftReferenced(value: real) | RightReferenced(value: real)

  /** One sample record. Every field is optional; an absent field (`undefined` or `null`) is `None`.
      Timestamps and power phases are not read by the engine and are not modelled. */
  datatype Record = Record(
    power: Option<real>,
    balance: Option<Balance>,
    leftTorqueEffectiveness: Option<real>,
    rightTorqueEffectiveness: Option<real>,
    leftPedalSmoothness: Option<real>,
    rightPedalSmoothness: Option<real>)

  /** The session summary fields the engine reads. */
  datatype Session = Session(avgPower: Option<real>, thresholdPower: Option<real>, balance: Option<Balance>)

  /** An unrounded left/right pair of readings. */
  datatype Sides = Sides(left: real, right: real)

  /** A rounded left/right pair, as reported (`{left, right}`). */
  datatype Pair = Pair(left: int, right: int)

  /** Left and right percentages of a balance reading, before rounding. */
  function Split(b: Balance): (s: Sides)
    ensures s.left + s.right == 100.0
    ensures b.RightReferenced? ==> s.right == b.value
    ensures b.LeftReferenced? ==> s.left == b.value
  {
    match b
    case RightReferenced(v) => Sides(100.0 - v, v)
    case LeftReferenced(v) => Sides(v, 100.0 - v)
  }

  /** A session's balance reading as reported: each side rounded on its own. The two rounded
      sides add up to 100, or to 101 when the reading is an exact half. */
  function NormalizeBalance(b: Balance): (p: Pair)
    ensures (if b.RightReferenced? then p.right else p.left) == Round(b.value)
    ensures (if b.RightReferenced? then p.left else p.right) == Round(100.0 - b.value)
    ensures 100 <= p.left + p.right <= 101
    ensures p.left + p.right == 101 <==> (b.value + 0.5).Floor as real == b.value + 0.5
  {
    var s := Split(b);
    RoundShares(s.left, s.right, 100);
    RoundShares(b.value, 100.0 - b.value, 100);
    Pair(Round(s.left), Round(s.right))
  }

  /** A record whose power reading is present and positive (`record.power && record.power > 0`). */
  predicate HasPower(r: Record) {
    r.power.Some? && r.power.value > 0.0
  }

  /** A left/right pair of optional readings that are both present and positive. */
  predicate BothPositive(left: Option<real>, right: Option<real>) {
    left.Some? && right.Some? && left.value > 0.0 && right.value > 0.0
  }

  predicate HasTorque(r: Record) {
    BothPositive(r.leftTorqueEffectiveness, r.rightTorqueEffectiveness)
  }

  predicate HasSmoothness(r: Record) {
    BothPositive(r.leftPedalSmoothness, r.rightPedalSmoothness)
  }

  /** The pre-filter of the overall torque/smoothness pass: any of the four fields present. */
  predicate HasAnyTorqueOrSmoothness(r: Record) {
    r.leftTorqueEffectiveness.Some? || r.rightTorqueEffectiveness.Some?
    || r.leftPedalSmoothness.Some? || r.rightPedalSmoothness.Some?
  }

  function TorqueSides(r: Record): (s: Option<Sides>)
    ensures s.Some? <==> HasTorque(r)
    ensures s.Some? ==> s.value.left > 0.0 && s.value.right > 0.0
  {
    if HasTorque(r) then Some(Sides(r.leftTorqueEffectiveness.value, r.rightTorqueEffectiveness.value)) else None
  }

  function SmoothnessSides(r: Record): (s: Option<Sides>)
    ensures s.Some? <==> HasSmoothness(r)
    ensures s.Some? ==> s.value.left > 0.0 && s.value.right > 0.0
  {
    if HasSmoothness(r) then Some(Sides(r.leftPedalSmoothness.value, r.rightPedalSmoothness.value)) else None
  }
}
