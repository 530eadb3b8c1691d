/**
 The target-value strategy in its control loop: the metric is a load spread over the
 instances, and the next check sees the count that the last one chose.
 */
module ClosedLoop {
  import opened Options
  import opened ScalingActions
  import opened TargetValue
  import opened Worker

  /** One target-value check of a policy with limits `min` and `max`. */
  function Check(count: int, factor: real, threshold: real, given: int, min: int, max: int): (r: Wish)
    ensures Some(r) == Decide(Wants(Strategy(count, factor, threshold, given)), count, min, max)
  {
    Decide(Wants(Strategy(count, factor, threshold, given)), count, min, max).value
  }

  /** Load per instance, relative to the target; no instances report no load. */
  function LoadFactor(load: real, n: int, target: real): real
    requires target != 0.0
  {
    Factor(if n == 0 then 0.0 else load / n as real, target)
  }

  /**
   An action moves the count strictly the way it says, also after capping, unless the
   strategy says down below the minimum or up above the maximum: then, and only then,
   the cap turns the count the other way. The dry-run marker is not capped.
   */
  lemma CappedMovesAsStated(count: int, factor: real, threshold: real, given: int, min: int, max: int)
    requires 0 <= count && min <= max && threshold >= 0.0
    ensures var w, r := Strategy(count, factor, threshold, given), Check(count, factor, threshold, given, min, max);
            && (r.direction != Hold ==> r.count != count)
            && (r.direction == Down && r.count > count <==> w.direction == Down && count < min && w.count != DRY_RUN_COUNT)
            && (r.direction == Up && r.count < count <==> w.direction == Up && count > max)
            && (r.direction == Up ==> r.count <= max)
            && (factor >= 0.0 && r.direction != Hold ==> min <= r.count <= max)
  {
    MovesAsStated(count, factor, threshold, given);
    if factor >= 0.0 { NeverNegative(count, factor, threshold, given); }
  }

  /** A strategy that says down takes two instances to the minimum of five. */
  lemma DownRaisesCount(given: int)
    ensures Check(2, 0.1, DEFAULT_THRESHOLD, given, 5, 9) == Wish(Down, 5)
  {
  }

  /** An action leaves the limits exactly when the strategy asks for the dry-run marker. */
  lemma LeavesLimits(count: int, factor: real, threshold: real, given: int, min: int, max: int)
    requires 0 <= count && 0 <= min <= max && threshold >= 0.0
    ensures var r := Check(count, factor, threshold, given, min, max);
            r.direction != Hold && !(min <= r.count <= max)
            <==> count >= 1 && factor < 1.0 - threshold && -2.0 < count as real * factor <= -1.0
  {
    YieldsDryRunMarker(count, factor, threshold, given);
  }

  /** A metric below zero takes the single instance to the marker, past the minimum of one. */
  lemma MarkerPassesCap(given: int)
    ensures Check(1, -1.5, DEFAULT_THRESHOLD, given, 1, 9) == Wish(Down, DRY_RUN_COUNT)
  {
  }

  lemma LoadCancels(load: real, n: int, target: real)
    requires n >= 1 && target > 0.0
    ensures n as real * LoadFactor(load, n, target) == load / target
  {
    var m := n as real;
    assert m * (load / m / target) == load / target by {
      assert m * (load / m) == load;
      assert m * (load / m / target) == m * (load / m) / target;
    }
  }

  lemma LoadFactorNonNegative(load: real, n: int, target: real)
    requires n >= 0 && target > 0.0 && load >= 0.0
    ensures LoadFactor(load, n, target) >= 0.0
  {
    if n > 0 { assert load / n as real >= 0.0; }
  }

  function Min(a: int, b: int): int { if a < b then a else b }

  function Max(a: int, b: int): int { if a < b then b else a }

  /** The load calls for `k` instances: one less would not carry it. */
  ghost predicate CallsFor(load: real, target: real, k: int)
    requires target > 0.0
  {
    k as real - 1.0 < load / target <= k as real
  }

  /**
   When a check acts and what it asks for. Between `1 - threshold` and `1 + threshold`
   times the target, or at the count that the load calls for, clamped, it holds.
   Otherwise it asks for that count, up above the target and down below it.
   */
  lemma OneStep(load: real, n: int, target: real, threshold: real, given: int, min: int, max: int, k: int)
    requires load >= 0.0 && target > 0.0 && threshold >= 0.0 && 1 <= n && min <= n <= max && CallsFor(load, target, k)
    ensures var r := Check(n, LoadFactor(load, n, target), threshold, given, min, max);
            var f := load / n as real / target;
            var wanted := Max(min, Min(max, k));
            if 1.0 - threshold <= f <= 1.0 + threshold || n == wanted then r.direction == Hold
            else r.count == wanted && (r.direction == Up <==> f > 1.0) && (r.direction == Down <==> f < 1.0)
  {
    var perInstance := load / n as real;
    var f := perInstance / target;
    LoadCancels(load, n, target);
    LoadFactorNonNegative(load, n, target);
    assert perInstance == f * target;
    ActsIff(perInstance, target, n, threshold, given, f, k);
    MovesAsStated(n, f, threshold, given);
    NeverNegative(n, f, threshold, given);
  }

  /** From zero instances a check scales up exactly on a positive factor, as far as the maximum allows. */
  lemma FromZero(metric: real, target: real, threshold: real, given: int, min: int, max: int, f: real, k: int)
    requires metric == if target == 0.0 then f else f * target
    requires min <= 0 <= max && k as real - 1.0 < f <= k as real
    ensures var r := Check(0, Factor(metric, target), threshold, given, min, max);
            if f > 0.0 && max > 0 then r == Wish(Up, Min(max, k)) else r.direction == Hold
  {
    ActsIff(metric, target, 0, threshold, given, f, k);
  }

  /** At the count that the load calls for, clamped, nothing further is asked for. */
  lemma Settled(load: real, n: int, target: real, threshold: real, given: int, min: int, max: int, k: int)
    requires load >= 0.0 && target > 0.0 && threshold >= 0.0 && 0 <= n && min <= n <= max && CallsFor(load, target, k)
    requires n == Max(min, Min(max, k))
    ensures Check(n, LoadFactor(load, n, target), threshold, given, min, max).direction == Hold
  {
    if n >= 1 {
      OneStep(load, n, target, threshold, given, min, max, k);
    }
  }

  /** The loop converges in one step, and stays there however often it is checked. */
  lemma ConvergesInOneStep(load: real, n: int, target: real, threshold: real, given: int, min: int, max: int, k: int)
    requires load >= 0.0 && target > 0.0 && threshold >= 0.0 && 1 <= n && 0 <= min <= n <= max && CallsFor(load, target, k)
    ensures var r := Check(n, LoadFactor(load, n, target), threshold, given, min, max);
            r.direction != Hold ==>
              && r.count == Max(min, Min(max, k))
              && 0 <= r.count
              && forall again :: Check(r.count, LoadFactor(load, r.count, target), threshold, again, min, max).direction == Hold
  {
    var r := Check(n, LoadFactor(load, n, target), threshold, given, min, max);
    if r.direction != Hold {
      OneStep(load, n, target, threshold, given, min, max, k);
      forall again ensures Check(r.count, LoadFactor(load, r.count, target), threshold, again, min, max).direction == Hold {
        Settled(load, r.count, target, threshold, again, min, max, k);
      }
    }
  }

  /** Without a configured threshold, a hundred instances are left alone within one percent of the target. */
  lemma DefaultDeadBand(f: real, given: int)
    ensures Check(100, f, DEFAULT_THRESHOLD, given, 1, 200).direction == Hold <==> 0.99 <= f <= 1.01
  {
    ActsIff(f, 0.0, 100, DEFAULT_THRESHOLD, given, f, Ceil(100.0 * f));
  }
}
