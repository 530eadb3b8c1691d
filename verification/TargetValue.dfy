/** The target-value strategy, with floating point numbers as reals. */
module TargetValue {
  import opened ScalingActions

  /** A number read from the strategy's configuration. */
  datatype Parsed = Missing | Invalid | Given(value: real)

  const DEFAULT_THRESHOLD := 0.01

  function Ceil(x: real): (n: int)
    ensures (n as real) - 1.0 < x <= n as real
  {
    -((-x).Floor)
  }

  function Factor(metric: real, target: real): real {
    if target == 0.0 then metric else metric / target
  }

  /** No action while the factor is within [1 - e, 1 + e]; from zero, any positive factor scales up. */
  function CalculateDirection(count: int, factor: real, e: real): (d: Direction) {
    if count == 0 then
      if factor > 0.0 then Up else Hold
    else if factor < 1.0 - e then Down
    else if factor > 1.0 + e then Up
    else Hold
  }

  function NewCount(count: int, factor: real): int {
    if count == 0 then Ceil(factor) else Ceil(count as real * factor)
  }

  /** What the strategy makes of the action it is given. */
  function Strategy(count: int, factor: real, threshold: real, given: int): (w: Wish) {
    var d := CalculateDirection(count, factor, threshold);
    if d == Hold || NewCount(count, factor) == count then Wish(Hold, given)
    else Wish(d, NewCount(count, factor))
  }

  datatype Reply = Failed | Nil | Evaluated

  method Run(action: ScalingAction, target: Parsed, threshold: Parsed, metrics: seq<real>, count: int)
    returns (r: Reply)
    modifies action`direction, action`count
    ensures r == Failed <==> !target.Given? || threshold.Invalid?
    ensures r == Nil <==> target.Given? && !threshold.Invalid? && metrics == []
    ensures action.Wished() ==
            if r != Evaluated then old(action.Wished())
            else Strategy(count, Factor(metrics[|metrics| - 1], target.value),
                          if threshold.Given? then threshold.value else DEFAULT_THRESHOLD, old(action.count))
  {
    if !target.Given? { return Failed; }
    if threshold.Invalid? { return Failed; }
    var e := if threshold.Given? then threshold.value else DEFAULT_THRESHOLD;
    if |metrics| == 0 { return Nil; }
    var factor := Factor(metrics[|metrics| - 1], target.value);

    action.direction := CalculateDirection(count, factor, e);
    if action.direction == Hold { return Evaluated; }

    var newCount := if count == 0 then Ceil(factor) else Ceil(count as real * factor);
    if newCount == count {
      action.direction := Hold;
      return Evaluated;
    }
    action.count := newCount;
    return Evaluated;
  }

  // ---------- The strategy's own guarantees ----------

  /** More than the current count, rounded up, is more; less is no more. */
  lemma RoundedAgainst(n: int, factor: real)
    requires n >= 1
    ensures factor > 1.0 ==> Ceil(n as real * factor) > n
    ensures factor < 1.0 ==> Ceil(n as real * factor) <= n
  {
    var m := n as real;
    var x := m * factor;
    ScaledAgainst(m, factor);
    if factor < 1.0 {
      assert Ceil(x) as real < m + 1.0;
      IntegersApart(Ceil(x), n);
    }
  }

  lemma ScaledAgainst(m: real, factor: real)
    requires m > 0.0
    ensures factor > 1.0 ==> m * factor > m
    ensures factor < 1.0 ==> m * factor < m
  {
    var d := factor - 1.0;
    assert m * factor == m * d + m;
    PositiveProduct(m, if d > 0.0 then d else -d);
  }

  lemma PositiveProduct(a: real, b: real)
    ensures a > 0.0 && b > 0.0 ==> a * b > 0.0
  {
  }

  lemma IntegersApart(a: int, b: int)
    ensures a > b ==> a as real >= b as real + 1.0
  {
    if a > b {
      var d := a - b - 1;
      assert a as real == b as real + d as real + 1.0;
    }
  }

  lemma CeilIs(x: real, k: int)
    requires k as real - 1.0 < x <= k as real
    ensures Ceil(x) == k
  {
    IntegersApart(Ceil(x), k);
    IntegersApart(k, Ceil(x));
  }

  /**
   When the strategy acts, and to which count. `f` is how many times the target the
   metric is, or the metric itself for a target of zero, and `k` the number of instances
   that this calls for, rounded up.
   */
  lemma ActsIff(metric: real, target: real, count: int, threshold: real, given: int, f: real, k: int)
    requires metric == if target == 0.0 then f else f * target
    requires var x := if count == 0 then f else count as real * f; k as real - 1.0 < x <= k as real
    ensures var w := Strategy(count, Factor(metric, target), threshold, given);
            && (w.direction == Up <==> k != count && if count == 0 then f > 0.0 else !(f < 1.0 - threshold) && f > 1.0 + threshold)
            && (w.direction == Down <==> k != count && count != 0 && f < 1.0 - threshold)
            && w.count == if w.direction == Hold then given else k
  {
    assert Factor(metric, target) == f;
    CeilIs(if count == 0 then f else count as real * f, k);
  }

  /** A count of zero or more moves strictly in the stated direction. */
  lemma MovesAsStated(count: int, factor: real, threshold: real, given: int)
    requires count >= 0 && threshold >= 0.0
    ensures var w := Strategy(count, factor, threshold, given);
            (w.direction == Up ==> w.count > count) && (w.direction == Down ==> w.count < count)
  {
    if count >= 1 { RoundedAgainst(count, factor); }
  }

  /** The strategy asks for the dry-run marker exactly when count * factor lies in (-2, -1]. */
  lemma YieldsDryRunMarker(count: int, factor: real, threshold: real, given: int)
    requires count >= 0 && threshold >= 0.0
    ensures var w := Strategy(count, factor, threshold, given);
            w.direction != Hold && w.count == DRY_RUN_COUNT
            <==> count >= 1 && factor < 1.0 - threshold && -2.0 < count as real * factor <= -1.0
  {
    MovesAsStated(count, factor, threshold, given);
  }

  /** One instance, a target of two and a metric of minus three. */
  lemma DryRunMarkerAsked(given: int)
    ensures Strategy(1, Factor(-3.0, 2.0), DEFAULT_THRESHOLD, given) == Wish(Down, DRY_RUN_COUNT)
  {
    assert Factor(-3.0, 2.0) == -1.5 && Ceil(-1.5) == -1;
  }

  /** With a non-negative factor the wished count is never negative. */
  lemma NeverNegative(count: int, factor: real, threshold: real, given: int)
    requires count >= 0 && threshold >= 0.0 && factor >= 0.0
    ensures var w := Strategy(count, factor, threshold, given);
            w.direction != Hold ==> w.count >= 0
  {
    assert count as real * factor >= 0.0;
  }
}
