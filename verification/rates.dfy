/**
 * The two learning-rate formulas of the SGDR callback (a linear warmup ramp
 * and the cosine anneal of Loshchilov and Hutter, "SGDR: Stochastic Gradient
 * Descent with Warm Restarts", ICLR 2017) and the rounding used when a phase
 * length grows.
 *
 * numpy's cosine cannot be computed exactly over the reals, so it is passed
 * in as a function `cos`; the properties below assume only what they name of
 * it (its values at 0 and pi, its monotonicity on [0, pi], its range).
 */
module SgdrRates {

  /** `np.pi` as Python prints it. */
  const Pi: real := 3.141592653589793

  /** `np.ceil`: the least integer that is not below `x`. */
  function Ceil(x: real): (r: int)
    ensures x <= r as real < x + 1.0
  {
    if x.Floor as real == x then x.Floor else x.Floor + 1
  }

  /** `r` is a whole number and is the ceiling of `x`. */
  predicate IsCeilOf(r: real, x: real)
  {
    r == r.Floor as real && x <= r < x + 1.0
  }

  lemma CeilIsCeilOf(x: real)
    ensures IsCeilOf(Ceil(x) as real, x)
  {
  }

  /** `np.ceil(length * factor)`: a phase length grown by its factor, rounded up to whole epochs. */
  function Grown(length: real, factor: real): (r: real)
    ensures IsCeilOf(r, length * factor)
  {
    CeilIsCeilOf(length * factor);
    Ceil(length * factor) as real
  }

  /** cos does not increase on [0, pi]. */
  ghost predicate CosNonIncreasing(cos: real -> real)
  {
    forall x: real, y: real :: 0.0 <= x <= y <= Pi ==> cos(y) <= cos(x)
  }

  /** cos stays within [-1, 1]. */
  ghost predicate CosBounded(cos: real -> real)
  {
    forall x: real :: -1.0 <= cos(x) <= 1.0
  }

  /**
   * `warmup_clr`: the fraction of the warmup phase done so far, measured in
   * batches against `stepsPerEpoch * warmupLength`, scales the way from
   * `minLr` to `maxLr`. The fraction is not clamped.
   */
  function WarmupRate(minLr: real, maxLr: real, stepsPerEpoch: int, warmupLength: real,
                      batchSinceWarmup: int): (lr: real)
    requires stepsPerEpoch as real * warmupLength != 0.0
    ensures batchSinceWarmup == 0 ==> lr == minLr
    ensures batchSinceWarmup as real == stepsPerEpoch as real * warmupLength ==> lr == maxLr
  {
    var fractionToRestart := batchSinceWarmup as real / (stepsPerEpoch as real * warmupLength);
    Ramp(minLr, maxLr, fractionToRestart)
  }

  /** The warmup shape: `min_lr` plus the share `f` of the way up to `max_lr`. */
  function Ramp(minLr: real, maxLr: real, f: real): real
  {
    minLr + (maxLr - minLr) * f
  }

  /**
   * `cosine_cooldown_clr`: half a cosine period over the cooldown phase,
   * from `maxLr` at its first batch down to `minLr` after
   * `stepsPerEpoch * initCooldownLength` batches.
   */
  function CooldownRate(minLr: real, maxLr: real, stepsPerEpoch: int, initCooldownLength: real,
                        batchSinceRestart: int, cos: real -> real): (lr: real)
    requires stepsPerEpoch as real * initCooldownLength != 0.0
    ensures batchSinceRestart == 0 && cos(0.0) == 1.0 ==> lr == maxLr
    ensures batchSinceRestart as real == stepsPerEpoch as real * initCooldownLength && cos(Pi) == -1.0
            ==> lr == minLr
  {
    var cycleLength := stepsPerEpoch as real * initCooldownLength;
    var fractionToRestart := batchSinceRestart as real / cycleLength;
    assert batchSinceRestart as real == cycleLength ==> fractionToRestart * Pi == Pi;
    Anneal(minLr, maxLr, cos(fractionToRestart * Pi))
  }

  /** Multiplying by a non-negative factor keeps an order. */
  lemma MulLeft(k: real, a: real, b: real)
    requires 0.0 <= k && a <= b
    ensures k * a <= k * b
  {
    assert k * b - k * a == k * (b - a);
  }

  /** Dividing by a positive number keeps an order. */
  lemma DivRight(a: real, b: real, d: real)
    requires 0.0 < d && a <= b
    ensures a / d <= b / d
  {
    assert b / d - a / d == (b - a) / d;
  }

  /** A non-negative value scaled by a factor in [0, 1] stays in [0, value]. */
  lemma ScaleDown(m: real, k: real, r: real)
    requires 0.0 <= m && 0.0 <= k <= 1.0
    ensures r == m * k ==> 0.0 <= r <= m
  {
    MulLeft(m, 0.0, k);
    MulLeft(m, k, 1.0);
  }

  /** With `maxLr >= minLr` the warmup rate never falls as the phase advances. */
  lemma WarmupRateMonotone(minLr: real, maxLr: real, stepsPerEpoch: int, warmupLength: real,
                           b1: int, b2: int)
    requires stepsPerEpoch as real * warmupLength > 0.0
    requires minLr <= maxLr && b1 <= b2
    ensures WarmupRate(minLr, maxLr, stepsPerEpoch, warmupLength, b1)
            <= WarmupRate(minLr, maxLr, stepsPerEpoch, warmupLength, b2)
  {
    var d := stepsPerEpoch as real * warmupLength;
    DivRight(b1 as real, b2 as real, d);
    RampMonotone(minLr, maxLr, b1 as real / d, b2 as real / d);
  }

  /** The warmup shape is monotone in the share of the phase done. */
  lemma RampMonotone(minLr: real, maxLr: real, f1: real, f2: real)
    requires minLr <= maxLr && f1 <= f2
    ensures Ramp(minLr, maxLr, f1) <= Ramp(minLr, maxLr, f2)
  {
    MulLeft(maxLr - minLr, f1, f2);
  }

  /** Inside the phase the warmup rate lies between `minLr` and `maxLr`. */
  lemma WarmupRateWithinPhase(minLr: real, maxLr: real, stepsPerEpoch: int, warmupLength: real,
                              batchSinceWarmup: int)
    requires stepsPerEpoch as real * warmupLength > 0.0
    requires minLr <= maxLr
    requires 0.0 <= batchSinceWarmup as real <= stepsPerEpoch as real * warmupLength
    ensures minLr <= WarmupRate(minLr, maxLr, stepsPerEpoch, warmupLength, batchSinceWarmup) <= maxLr
  {
    var d := stepsPerEpoch as real * warmupLength;
    var f := batchSinceWarmup as real / d;
    DivRight(0.0, batchSinceWarmup as real, d);
    DivRight(batchSinceWarmup as real, d, d);
    MulLeft(maxLr - minLr, 0.0, f);
    MulLeft(maxLr - minLr, f, 1.0);
  }

  /** The warmup rate is not clamped: past the end of the phase it exceeds `maxLr`. */
  lemma WarmupRateOvershoots(minLr: real, maxLr: real, stepsPerEpoch: int, warmupLength: real,
                             batchSinceWarmup: int)
    requires stepsPerEpoch as real * warmupLength > 0.0
    requires minLr < maxLr
    requires batchSinceWarmup as real > stepsPerEpoch as real * warmupLength
    ensures WarmupRate(minLr, maxLr, stepsPerEpoch, warmupLength, batchSinceWarmup) > maxLr
  {
    var d := stepsPerEpoch as real * warmupLength;
    var f := batchSinceWarmup as real / d;
    assert f > 1.0 by {
      assert (batchSinceWarmup as real - d) / d > 0.0;
      assert f - d / d == (batchSinceWarmup as real - d) / d;
    }
    assert (maxLr - minLr) * f - (maxLr - minLr) == (maxLr - minLr) * (f - 1.0);
  }

  /** Batch counts within a cooldown phase map to angles in [0, pi], in order. */
  lemma CooldownAngles(b1: real, b2: real, d: real)
    requires 0.0 < d && 0.0 <= b1 <= b2 <= d
    ensures 0.0 <= b1 / d * Pi <= b2 / d * Pi <= Pi
  {
    DivRight(0.0, b1, d);
    DivRight(b1, b2, d);
    DivRight(b2, d, d);
    MulLeft(Pi, 0.0, b1 / d);
    MulLeft(Pi, b1 / d, b2 / d);
    MulLeft(Pi, b2 / d, 1.0);
  }

  /** The cosine-anneal shape: `min_lr` plus the share `(1 + c) / 2` of the way up to `max_lr`. */
  function Anneal(minLr: real, maxLr: real, c: real): real
  {
    minLr + 0.5 * (maxLr - minLr) * (1.0 + c)
  }

  /** The cosine-anneal shape is monotone in the cosine value. */
  lemma AnnealMonotone(minLr: real, maxLr: real, c1: real, c2: real)
    requires minLr <= maxLr && c2 <= c1
    ensures Anneal(minLr, maxLr, c2) <= Anneal(minLr, maxLr, c1)
  {
    MulLeft(0.5 * (maxLr - minLr), 1.0 + c2, 1.0 + c1);
  }

  /** For a cosine value in [-1, 1] the cosine-anneal shape lies in [minLr, maxLr]. */
  lemma AnnealWithin(minLr: real, maxLr: real, c: real)
    requires minLr <= maxLr && -1.0 <= c <= 1.0
    ensures minLr <= Anneal(minLr, maxLr, c) <= maxLr
  {
    MulLeft(0.5 * (maxLr - minLr), 0.0, 1.0 + c);
    MulLeft(0.5 * (maxLr - minLr), 1.0 + c, 2.0);
  }

  /** With a cosine that falls on [0, pi] the cooldown rate never rises within the phase. */
  lemma CooldownRateMonotone(minLr: real, maxLr: real, stepsPerEpoch: int, initCooldownLength: real,
                             b1: int, b2: int, cos: real -> real)
    requires stepsPerEpoch as real * initCooldownLength > 0.0
    requires minLr <= maxLr && CosNonIncreasing(cos)
    requires 0 <= b1 <= b2 && b2 as real <= stepsPerEpoch as real * initCooldownLength
    ensures CooldownRate(minLr, maxLr, stepsPerEpoch, initCooldownLength, b2, cos)
            <= CooldownRate(minLr, maxLr, stepsPerEpoch, initCooldownLength, b1, cos)
  {
    var d := stepsPerEpoch as real * initCooldownLength;
    var x1, x2 := b1 as real / d * Pi, b2 as real / d * Pi;
    assert cos(x2) <= cos(x1) by {
      CooldownAngles(b1 as real, b2 as real, d);
    }
    AnnealMonotone(minLr, maxLr, cos(x1), cos(x2));
  }

  /** Unlike the warmup ramp, the cooldown rate never leaves [minLr, maxLr], whatever the counter. */
  lemma CooldownRateBetween(minLr: real, maxLr: real, stepsPerEpoch: int, initCooldownLength: real,
                            batchSinceRestart: int, cos: real -> real)
    requires stepsPerEpoch as real * initCooldownLength != 0.0
    requires minLr <= maxLr && CosBounded(cos)
    ensures minLr <= CooldownRate(minLr, maxLr, stepsPerEpoch, initCooldownLength, batchSinceRestart, cos) <= maxLr
  {
    var d := stepsPerEpoch as real * initCooldownLength;
    AnnealWithin(minLr, maxLr, cos(batchSinceRestart as real / d * Pi));
  }
}
