/** The histogram buckets of the bulker metrics. */
module Buckets {

  /** Go's integer division, which truncates toward zero. */
  function Quotient(a: int, b: int): int
    requires b >= 1
  {
    if a >= 0 then a / b else -((-a) / b)
  }

  /** The loop variable of computeBuckets after n iterations. */
  function LoopVariable(maxBucket: int, density: int, n: nat): int
    requires density >= 1
  {
    var step := Quotient(maxBucket, density);
    step + n * step
  }

  /** After n iterations the loop condition fails. */
  predicate LoopEnded(maxBucket: int, density: int, n: nat)
    requires density >= 1
  {
    LoopVariable(maxBucket, density, n) > maxBucket
  }

  method ComputeBuckets(maxBucket: int, density: int) returns (buckets: seq<int>)
    requires 1 <= density <= maxBucket
    ensures var step := maxBucket / density;
            && |buckets| == density + (maxBucket % density) / step
            && density <= |buckets| <= 2 * density - 1
            && (forall i :: 0 <= i < |buckets| ==> buckets[i] == (i + 1) * step)
            && (forall i, j :: 0 <= i < j < |buckets| ==> buckets[i] < buckets[j])
            && maxBucket - step < buckets[|buckets| - 1] <= maxBucket
  {
    var step := maxBucket / density;
    StepPositive(maxBucket, density);
    buckets := [];
    var i := step;
    while i <= maxBucket
      invariant i == (|buckets| + 1) * step
      invariant |buckets| * step <= maxBucket
      invariant forall k :: 0 <= k < |buckets| ==> buckets[k] == (k + 1) * step
      decreases maxBucket - i
    {
      buckets := buckets + [i];
      i := i + step;
    }
    CountIsExact(maxBucket, density, |buckets|);
    forall a, b | 0 <= a < b < |buckets| ensures buckets[a] < buckets[b] {
      MultiplesIncrease(step, a + 1, b + 1);
    }
  }

  lemma StepPositive(maxBucket: int, density: int)
    requires 1 <= density <= maxBucket
    ensures maxBucket / density >= 1
    ensures maxBucket == density * (maxBucket / density) + maxBucket % density
  {
  }

  lemma MultiplesIncrease(step: int, a: int, b: int)
    requires step >= 1 && a < b
    ensures a * step < b * step
  {
    assert (b - a) * step >= 1;
  }

  /** The number of multiples of the step that fit below maxBucket. */
  lemma CountIsExact(maxBucket: int, density: int, n: nat)
    requires 1 <= density <= maxBucket
    requires var step := maxBucket / density; n * step <= maxBucket < (n + 1) * step
    ensures var step := maxBucket / density;
            n == density + (maxBucket % density) / step && density <= n <= 2 * density - 1
  {
    var step, r := maxBucket / density, maxBucket % density;
    StepPositive(maxBucket, density);
    Distribute(step, n, density);
    QuotientUnique(r, step, n - density);
    QuotientSmall(r, step);
  }

  lemma Distribute(step: int, n: int, d: int)
    ensures (n - d) * step == n * step - d * step && (n + 1) * step == n * step + step
  {
  }

  lemma QuotientUnique(r: int, step: int, q: int)
    requires step >= 1 && q * step <= r < q * step + step
    ensures r / step == q
  {
    var k := r / step;
    assert r == k * step + r % step;
    if q < k {
      Monotone(step, q + 1, k);
    } else if k < q {
      Monotone(step, k + 1, q);
    }
  }

  lemma QuotientSmall(r: int, step: int)
    requires step >= 1 && r >= 0
    ensures 0 <= r / step <= r
  {
    var k := r / step;
    assert r == k * step + r % step;
    ProductAtLeast(k, step);
  }

  lemma ProductAtLeast(k: int, step: int)
    requires step >= 1
    ensures k >= 0 ==> k * step >= k
    ensures k < 0 ==> k * step <= -step
  {
    if k >= 0 {
      assert k * (step - 1) >= 0;
    } else {
      Monotone(step, k, -1);
    }
  }

  lemma Monotone(step: int, a: int, b: int)
    requires step >= 1 && a <= b
    ensures a * step <= b * step
  {
    assert (b - a) * step >= 0;
  }

  /** The loop ends exactly when there are no more buckets than values, or the maximum is negative
      and lies below the step: else the step is zero or leads away from the maximum, and the loop
      variable never passes it. */
  lemma TerminatesExactly(maxBucket: int, density: int)
    requires density >= 1
    ensures (exists n: nat :: LoopEnded(maxBucket, density, n)) <==>
            density <= maxBucket || (maxBucket < 0 && density >= 2)
  {
    if maxBucket < 0 {
      NegativeMaximum(maxBucket, density);
    } else if density <= maxBucket {
      Passes(maxBucket, density);
    } else {
      forall n: nat ensures !LoopEnded(maxBucket, density, n) {
        StandsStill(maxBucket, density, n);
      }
    }
  }

  lemma StandsStill(maxBucket: int, density: int, n: nat)
    requires 0 <= maxBucket < density
    ensures !LoopEnded(maxBucket, density, n)
  {
    assert Quotient(maxBucket, density) == 0;
  }

  lemma Passes(maxBucket: int, density: int)
    requires 1 <= density <= maxBucket
    ensures LoopEnded(maxBucket, density, maxBucket)
  {
    var step := maxBucket / density;
    StepPositive(maxBucket, density);
    ProductAtLeast(step, maxBucket);
    Commutes(step, maxBucket);
  }

  lemma Commutes(a: int, b: int)
    ensures a * b == b * a
  {
  }

  lemma NegativeMaximum(maxBucket: int, density: int)
    requires maxBucket < 0 && density >= 1
    ensures density >= 2 ==> LoopEnded(maxBucket, density, 0)
    ensures density == 1 ==> forall n: nat :: !LoopEnded(maxBucket, density, n)
  {
    NegativeStep(-maxBucket, density);
    if density == 1 {
      forall n: nat ensures !LoopEnded(maxBucket, density, n) {
        GoesDown(maxBucket, n);
      }
    }
  }

  lemma GoesDown(maxBucket: int, n: nat)
    requires maxBucket < 0
    ensures !LoopEnded(maxBucket, 1, n)
  {
    NegativeStep(-maxBucket, 1);
    assert Quotient(maxBucket, 1) == maxBucket;
    Monotone(-maxBucket, 0, n);
    assert n * maxBucket == -(n * -maxBucket);
  }

  lemma NegativeStep(a: int, density: int)
    requires a >= 1 && density >= 1
    ensures density == 1 ==> a / density == a
    ensures density >= 2 ==> a / density < a
  {
    if density >= 2 {
      var q := a / density;
      assert a == q * density + a % density;
      if q >= a {
        Monotone(density, a, q);
      }
    }
  }
}
