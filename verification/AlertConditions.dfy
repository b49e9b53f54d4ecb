// The condition tests of src/market-state/alert-runner.ts. A field of the stored
// condition that is not a number, or not a known direction, is None or OtherDirection.
module AlertConditions {
  import opened Options

  datatype Direction = Above | Below | Up | Down | OtherDirection

  datatype Condition =
    | PriceCrossesAbove(threshold: Option<real>)
    | PriceCrossesBelow(threshold: Option<real>)
    | PriceCrossesSma(direction: Direction)
    | PercentMove(direction: Direction, percent: Option<real>)
    | SmaCross(direction: Direction)
    | RsiThreshold(direction: Direction, threshold: Option<real>)
    | VolumeSpike(multiplier: Option<real>)
    | OtherCondition

  predicate ConditionIsTrue(c: Condition, current: real) {
    match c
    case PriceCrossesAbove(threshold) => threshold.Some? && current > threshold.value
    case PriceCrossesBelow(threshold) => threshold.Some? && current < threshold.value
    case PriceCrossesSma(direction) => (direction.Above? && current > 0.0) || (direction.Below? && current < 0.0)
    case PercentMove(direction, percent) =>
      percent.Some? && ((direction.Up? && current > percent.value) || (direction.Down? && current < -percent.value))
    case SmaCross(direction) => (direction.Above? && current > 0.0) || (direction.Below? && current < 0.0)
    case RsiThreshold(direction, threshold) =>
      threshold.Some? &&
      ((direction.Above? && current > threshold.value) || (direction.Below? && current < threshold.value))
    case VolumeSpike(multiplier) => multiplier.Some? && current > multiplier.value
    case OtherCondition => false
  }

  predicate Crosses(c: Condition, previous: real, current: real) {
    match c
    case PriceCrossesAbove(threshold) => threshold.Some? && previous <= threshold.value && current > threshold.value
    case PriceCrossesBelow(threshold) => threshold.Some? && previous >= threshold.value && current < threshold.value
    case PriceCrossesSma(direction) =>
      (direction.Above? && previous <= 0.0 && current > 0.0) || (direction.Below? && previous >= 0.0 && current < 0.0)
    case PercentMove(direction, percent) =>
      percent.Some? &&
      ((direction.Up? && previous <= percent.value && current > percent.value) ||
       (direction.Down? && previous >= -percent.value && current < -percent.value))
    case SmaCross(direction) =>
      (direction.Above? && previous <= 0.0 && current > 0.0) || (direction.Below? && previous >= 0.0 && current < 0.0)
    case RsiThreshold(direction, threshold) =>
      threshold.Some? &&
      ((direction.Above? && previous <= threshold.value && current > threshold.value) ||
       (direction.Below? && previous >= threshold.value && current < threshold.value))
    case VolumeSpike(multiplier) => multiplier.Some? && previous <= multiplier.value && current > multiplier.value
    case OtherCondition => false
  }

  /** For all seven condition types a crossing is a rising edge of the condition. */
  lemma CrossesIsRisingEdge(c: Condition, previous: real, current: real)
    ensures Crosses(c, previous, current) <==> !ConditionIsTrue(c, previous) && ConditionIsTrue(c, current)
  {
  }

  /** How far a value is on the far side of the bound that the condition sets; None where it sets none. */
  function Beyond(c: Condition, value: real): Option<real> {
    match c
    case PriceCrossesAbove(Some(threshold)) => Some(value - threshold)
    case PriceCrossesBelow(Some(threshold)) => Some(threshold - value)
    case PriceCrossesSma(Above) => Some(value)
    case PriceCrossesSma(Below) => Some(-value)
    case PercentMove(Up, Some(percent)) => Some(value - percent)
    case PercentMove(Down, Some(percent)) => Some(-value - percent)
    case SmaCross(Above) => Some(value)
    case SmaCross(Below) => Some(-value)
    case RsiThreshold(Above, Some(threshold)) => Some(value - threshold)
    case RsiThreshold(Below, Some(threshold)) => Some(threshold - value)
    case VolumeSpike(Some(multiplier)) => Some(value - multiplier)
    case _ => None
  }

  /** A condition is true strictly beyond its bound, and never without one: a missing number, an unknown
      direction and an unknown type alert nobody. */
  lemma TrueBeyondTheBound(c: Condition, value: real)
    ensures ConditionIsTrue(c, value) <==> Beyond(c, value).Some? && Beyond(c, value).value > 0.0
  {
  }
}
