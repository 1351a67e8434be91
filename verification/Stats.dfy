// Paired statistics of the benchmark (packages/arc-agi-3-bench/src/stats.ts), over reals. The random
// generator is an arbitrary stream of numbers in [0, 1).
module Stats {
  import opened Collections
  import opened Reals
  import opened Wrappers

  const EPSILON: real := 1.0 / 4503599627370496.0
  const WORD: nat := 32

  function Mean(values: seq<real>): real
    requires values != []
  {
    Sum(values, |values|) / |values| as real
  }

  // ---------------------------------------------------------------- the exact sign-flip test

  function Pow2(n: nat): (p: nat)
    ensures p >= 1
  {
    if n == 0 then 1 else 2 * Pow2(n - 1)
  }

  /** The bit test on 32-bit words: beyond bit 31 the tested power of two has become zero. */
  predicate Plus(mask: nat, index: nat) {
    index < WORD && (mask / Pow2(index)) % 2 == 1
  }

  /** The sum of the first `k` values under the signs that a mask stands for. */
  function SignedSum(values: seq<real>, mask: nat, k: nat): real
    requires k <= |values|
  {
    if k == 0 then 0.0 else SignedSum(values, mask, k - 1) + if Plus(mask, k - 1) then values[k - 1] else -values[k - 1]
  }

  /** How many masks below `hi` reach the goal from a start of `acc`. */
  function CountMasks(values: seq<real>, k: nat, hi: nat, acc: real, goal: real): nat
    requires k <= |values|
  {
    if hi == 0 then 0
    else CountMasks(values, k, hi - 1, acc, goal) + if acc + SignedSum(values, hi - 1, k) >= goal then 1 else 0
  }

  /** The brute-force count: every value taken once with each sign. */
  function Flips(values: seq<real>, k: nat, acc: real, goal: real): nat
    requires k <= |values|
  {
    if k == 0 then if acc >= goal then 1 else 0
    else Flips(values, k - 1, acc - values[k - 1], goal) + Flips(values, k - 1, acc + values[k - 1], goal)
  }

  lemma Doubled(a: nat, b: nat)
    ensures 2 * (a * b) == (2 * a) * b
  {
  }

  lemma Pow2Doubles(n: nat)
    ensures Pow2(n + 1) == 2 * Pow2(n)
  {
  }

  lemma {:induction false} Pow2Splits(i: nat, k: nat)
    requires i < k
    ensures Pow2(k) == Pow2(i) * (2 * Pow2(k - 1 - i))
  {
    if i == 0 {
      Pow2Doubles(k - 1);
    } else {
      Pow2Splits(i - 1, k - 1);
      Pow2Doubles(i - 1);
      Pow2Doubles(k - 1);
      hide Pow2;
      Doubled(Pow2(i - 1), 2 * Pow2(k - 1 - i));
    }
  }

  lemma MultipleIsFar(e: int, p: int)
    requires p > 0
    ensures e >= 1 ==> e * p >= p
    ensures e <= -1 ==> e * p <= -p
  {
  }

  lemma QuotientIs(a: int, p: nat, d: int, r: int)
    requires p > 0 && 0 <= r < p && a == d * p + r
    ensures a / p == d
  {
    var x := a / p;
    var e := x - d;
    assert e * p == x * p - d * p;
    MultipleIsFar(e, p);
  }

  lemma DivideShifted(m: nat, p: nat, q: nat)
    requires p > 0
    ensures (p * (2 * q) + m) / p == 2 * q + m / p
  {
    var d, r := m / p, m % p;
    assert (2 * q + d) * p == p * (2 * q) + d * p;
    QuotientIs(p * (2 * q) + m, p, 2 * q + d, r);
  }

  /** Adding a higher power of two leaves the lower bits alone. */
  lemma LowBitsStay(m: nat, i: nat, k: nat)
    requires i < k
    ensures Plus(Pow2(k) + m, i) == Plus(m, i)
  {
    hide Pow2;
    Pow2Splits(i, k);
    DivideShifted(m, Pow2(i), Pow2(k - 1 - i));
  }

  lemma TopBit(m: nat, k: nat)
    requires m < Pow2(k) && k < WORD
    ensures !Plus(m, k) && Plus(Pow2(k) + m, k)
  {
    hide Pow2;
    var p := Pow2(k);
    QuotientIs(m, p, 0, m);
    QuotientIs(p + m, p, 1, m);
  }

  lemma {:induction false} LowSumStays(values: seq<real>, m: nat, k: nat, top: nat)
    requires k <= top && k <= |values|
    ensures SignedSum(values, Pow2(top) + m, k) == SignedSum(values, m, k)
  {
    if k > 0 {
      LowSumStays(values, m, k - 1, top);
      LowBitsStay(m, k - 1, top);
    }
  }

  lemma {:induction false} LowHalf(values: seq<real>, k: nat, hi: nat, acc: real, goal: real)
    requires 1 <= k <= |values| && k <= WORD && hi <= Pow2(k - 1)
    ensures CountMasks(values, k, hi, acc, goal) == CountMasks(values, k - 1, hi, acc - values[k - 1], goal)
  {
    hide Plus;
    if hi > 0 {
      LowHalf(values, k, hi - 1, acc, goal);
      TopBit(hi - 1, k - 1);
    }
  }

  lemma {:induction false} HighHalf(values: seq<real>, k: nat, hi: nat, acc: real, goal: real)
    requires 1 <= k <= |values| && k <= WORD && hi <= Pow2(k - 1)
    ensures CountMasks(values, k, Pow2(k - 1) + hi, acc, goal) ==
            CountMasks(values, k, Pow2(k - 1), acc, goal) + CountMasks(values, k - 1, hi, acc + values[k - 1], goal)
  {
    hide Plus;
    if hi > 0 {
      HighHalf(values, k, hi - 1, acc, goal);
      TopBit(hi - 1, k - 1);
      LowSumStays(values, hi - 1, k - 1, k - 1);
    }
  }

  /** Up to 32 values, the masks run through every choice of signs exactly once. */
  lemma {:induction false} MasksAreFlips(values: seq<real>, k: nat, acc: real, goal: real)
    requires k <= |values| && k <= WORD
    ensures CountMasks(values, k, Pow2(k), acc, goal) == Flips(values, k, acc, goal)
  {
    if k == 0 {
      assert CountMasks(values, 0, 1, acc, goal)
             == CountMasks(values, 0, 0, acc, goal) + if acc + SignedSum(values, 0, 0) >= goal then 1 else 0;
    } else {
      LowHalf(values, k, Pow2(k - 1), acc, goal);
      HighHalf(values, k, Pow2(k - 1), acc, goal);
      MasksAreFlips(values, k - 1, acc - values[k - 1], goal);
      MasksAreFlips(values, k - 1, acc + values[k - 1], goal);
    }
  }

  /** Two masks disagree on some sign. */
  ghost predicate Differ(m: nat, u: nat, n: nat) {
    exists i :: 0 <= i < n && Plus(m, i) != Plus(u, i)
  }

  lemma {:induction false} SmallMasksDiffer(m: nat, u: nat, n: nat)
    requires m < u < Pow2(n) && n <= WORD
    ensures Differ(m, u, n)
    decreases n
  {
    hide Plus;
    var p := Pow2(n - 1);
    if u < p {
      SmallMasksDiffer(m, u, n - 1);
      var i :| 0 <= i < n - 1 && Plus(m, i) != Plus(u, i);
    } else if m < p {
      TopBit(m, n - 1);
      TopBit(u - p, n - 1);
      assert Plus(m, n - 1) != Plus(u, n - 1);
    } else {
      SmallMasksDiffer(m - p, u - p, n - 1);
      var i :| 0 <= i < n - 1 && Plus(m - p, i) != Plus(u - p, i);
      LowBitsStay(m - p, i, n - 1);
      LowBitsStay(u - p, i, n - 1);
      assert Plus(m, i) != Plus(u, i);
    }
  }

  /** Each choice of signs is met once exactly when there are at most 32 values. */
  lemma EachFlipOnce(n: nat)
    ensures (forall m: nat, u: nat :: m < u < Pow2(n) ==> Differ(m, u, n)) <==> n <= WORD
  {
    if n <= WORD {
      forall m: nat, u: nat | m < u < Pow2(n) ensures Differ(m, u, n) {
        SmallMasksDiffer(m, u, n);
      }
    } else {
      forall i: nat | i < n ensures Plus(0, i) == Plus(Pow2(WORD), i) {
        if i < WORD {
          LowBitsStay(0, i, WORD);
        }
      }
      assert !Differ(0, Pow2(WORD), n);
      Pow2Grows(WORD, n);
    }
  }

  lemma {:induction false} Pow2Grows(m: nat, n: nat)
    requires m < n
    ensures Pow2(m) < Pow2(n)
  {
    if m + 1 < n {
      Pow2Grows(m, n - 1);
    }
  }

  /** The values past the 32nd are always taken with a minus sign. */
  function Tail(values: seq<real>, n: nat): real
    requires n <= |values|
  {
    if n <= WORD then 0.0 else Tail(values, n - 1) + values[n - 1]
  }

  lemma {:induction false} WideSum(values: seq<real>, mask: nat, n: nat)
    requires WORD <= n <= |values|
    ensures SignedSum(values, mask, n) == SignedSum(values, mask, WORD) - Tail(values, n)
  {
    if n > WORD {
      WideSum(values, mask, n - 1);
    }
  }

  lemma {:induction false} WideMasks(values: seq<real>, n: nat, hi: nat, acc: real, goal: real)
    requires WORD <= n <= |values|
    ensures CountMasks(values, n, hi, acc, goal) == CountMasks(values, WORD, hi, acc - Tail(values, n), goal)
  {
    hide SignedSum, Tail;
    if hi > 0 {
      WideMasks(values, n, hi - 1, acc, goal);
      WideSum(values, hi - 1, n);
    }
  }

  lemma {:induction false} MasksRepeat(values: seq<real>, j: nat, hi: nat, acc: real, goal: real)
    requires WORD <= j && WORD <= |values|
    ensures CountMasks(values, WORD, Pow2(j) + hi, acc, goal) ==
            CountMasks(values, WORD, Pow2(j), acc, goal) + CountMasks(values, WORD, hi, acc, goal)
  {
    hide SignedSum;
    if hi > 0 {
      MasksRepeat(values, j, hi - 1, acc, goal);
      LowSumStays(values, hi - 1, WORD, j);
    }
  }

  lemma ZerothPower()
    ensures Pow2(0) == 1
  {
  }

  lemma {:induction false} MasksMultiply(values: seq<real>, n: nat, acc: real, goal: real)
    requires WORD <= n && WORD <= |values|
    ensures CountMasks(values, WORD, Pow2(n), acc, goal) == Pow2(n - WORD) * Flips(values, WORD, acc, goal)
  {
    hide *;
    if n == WORD {
      ZerothPower();
      MasksAreFlips(values, WORD, acc, goal);
    } else {
      MasksMultiply(values, n - 1, acc, goal);
      MasksRepeat(values, n - 1, Pow2(n - 1), acc, goal);
      Pow2Doubles(n - 1);
      Pow2Doubles(n - 1 - WORD);
      Doubled(Pow2(n - 1 - WORD), Flips(values, WORD, acc, goal));
    }
  }

  /** Beyond 32 values the loop counts only the flips in which all later values are negative. */
  lemma WideCount(values: seq<real>, goal: real)
    requires |values| >= WORD
    ensures CountMasks(values, |values|, Pow2(|values|), 0.0, goal) ==
            Pow2(|values| - WORD) * Flips(values, WORD, -Tail(values, |values|), goal)
  {
    hide CountMasks, Flips, Tail, Pow2;
    WideMasks(values, |values|, Pow2(|values|), 0.0, goal);
    MasksMultiply(values, |values|, 0.0 - Tail(values, |values|), goal);
  }

  lemma {:induction false} FlipsBounded(values: seq<real>, k: nat, acc: real, goal: real)
    requires k <= |values|
    ensures Flips(values, k, acc, goal) <= Pow2(k)
    ensures acc + Sum(values, k) >= goal ==> Flips(values, k, acc, goal) >= 1
    ensures acc + Magnitude(values, k) < goal ==> Flips(values, k, acc, goal) == 0
  {
    if k > 0 {
      FlipsBounded(values, k - 1, acc - values[k - 1], goal);
      FlipsBounded(values, k - 1, acc + values[k - 1], goal);
    }
  }

  function Magnitude(values: seq<real>, k: nat): real
    requires k <= |values|
  {
    if k == 0 then 0.0 else Magnitude(values, k - 1) + if values[k - 1] >= 0.0 then values[k - 1] else -values[k - 1]
  }

  /** What a sum has to come to: the observed one, less 2^-52 for every value. */
  ghost function Goal(values: seq<real>): real {
    Sum(values, |values|) - |values| as real / 4503599627370496.0
  }

  lemma ReachesGoal(total: real, values: seq<real>)
    requires values != []
    ensures total / |values| as real >= Mean(values) - EPSILON <==> total >= Goal(values)
    ensures Sum(values, |values|) >= Goal(values)
  {
    var n := |values| as real;
    var m := Mean(values) - EPSILON;
    assert (total / n) * n == total && Mean(values) * n == Sum(values, |values|);
    assert m * n == Goal(values);
    if total / n >= m {
      assert (total / n) * n >= m * n;
    } else {
      assert (total / n) * n < m * n;
    }
  }

  /** The exact branch: with at most 32 values the p-value is the share of all sign choices that do as well. */
  method SignFlipExact(values: seq<real>) returns (p: real, atLeast: nat)
    requires values != []
    ensures atLeast == CountMasks(values, |values|, Pow2(|values|), 0.0, Goal(values))
    ensures p == atLeast as real / Pow2(|values|) as real
    ensures |values| <= WORD ==> atLeast == Flips(values, |values|, 0.0, Goal(values))
    ensures |values| <= WORD ==> 1.0 / Pow2(|values|) as real <= p <= 1.0
  {
    hide Plus, Flips, Goal;
    var n := |values|;
    var combinations := Pow2(n);
    atLeast := 0;
    for mask := 0 to combinations
      invariant atLeast == CountMasks(values, n, mask, 0.0, Goal(values))
    {
      var total := 0.0;
      for index := 0 to n
        invariant total == SignedSum(values, mask, index)
      {
        total := total + if Plus(mask, index) then values[index] else -values[index];
      }
      ReachesGoal(total, values);
      if total / n as real >= Mean(values) - EPSILON {
        atLeast := atLeast + 1;
      }
    }
    p := atLeast as real / combinations as real;
    if n <= WORD {
      MasksAreFlips(values, n, 0.0, Goal(values));
      ReachesGoal(0.0, values);
      FlipsBounded(values, n, 0.0, Goal(values));
      ShareBounds(atLeast, combinations);
    }
  }

  lemma ShareBounds(a: nat, c: nat)
    requires 1 <= a <= c
    ensures 1.0 / c as real <= a as real / c as real <= 1.0
  {
    QuotientOrder(1.0, a as real, c as real);
    QuotientOrder(a as real, c as real, c as real);
  }

  lemma QuotientOrder(x: real, y: real, c: real)
    requires c > 0.0 && x <= y
    ensures x / c <= y / c && c / c == 1.0
  {
    var p, q := x / c, y / c;
    assert p * c == x && q * c == y;
    assert (q - p) * c == q * c - p * c;
    SignOfFactor(q - p, c);
  }

  lemma SignOfFactor(d: real, c: real)
    requires c > 0.0 && d * c >= 0.0
    ensures d >= 0.0
  {
  }

  function Ones(n: nat): (ones: seq<real>)
    ensures |ones| == n
  {
    seq(n, i => 1.0)
  }

  lemma {:induction false} OnesAddUp(n: nat, k: nat)
    requires k <= n
    ensures Sum(Ones(n), k) == k as real && Magnitude(Ones(n), k) == k as real
  {
    if k > 0 {
      OnesAddUp(n, k - 1);
    }
  }

  /** With 33 equal positive values not even the observed signs are counted, although they reach the goal. */
  lemma ThirtyThreeOnes()
    ensures CountMasks(Ones(33), 33, Pow2(33), 0.0, Goal(Ones(33))) == 0
    ensures Flips(Ones(33), 33, 0.0, Goal(Ones(33))) >= 1
  {
    hide CountMasks, Flips, Pow2;
    var ones := Ones(33);
    OnesAddUp(33, 33);
    OnesAddUp(33, WORD);
    ReachesGoal(0.0, ones);
    FlipsBounded(ones, 33, 0.0, Goal(ones));
    WideCount(ones, Goal(ones));
    assert Tail(ones, 33) == 1.0 by { assert Tail(ones, WORD) == 0.0; }
    FlipsBounded(ones, WORD, -1.0, Goal(ones));
  }

  // ---------------------------------------------------------------- the sampled branch

  /** A stream of numbers in [0, 1). */
  ghost predicate IsRandom(random: nat -> real) {
    forall i :: 0.0 <= random(i) < 1.0
  }

  /** The mean of the values, each negated when its draw falls in the lower half; draws start at `from`. */
  function FlippedSum(values: seq<real>, random: nat -> real, from: nat, k: nat): real
    requires k <= |values|
  {
    if k == 0 then 0.0 else
    FlippedSum(values, random, from, k - 1) + if random(from + k - 1) < 0.5 then -values[k - 1] else values[k - 1]
  }

  /** How many of the first `rounds` resamples, each on its own stretch of the stream, reach the goal. */
  ghost function SampledCount(values: seq<real>, random: nat -> real, rounds: nat): (count: nat)
    requires values != []
    ensures count <= rounds
  {
    if rounds == 0 then 0 else
    SampledCount(values, random, rounds - 1)
      + if FlippedSum(values, random, (rounds - 1) * |values|, |values|) >= Goal(values) then 1 else 0
  }

  /** The sampled p-value counts the observation itself, so it is never zero. */
  method SignFlipSampled(values: seq<real>, resamples: nat, random: nat -> real) returns (p: real)
    requires values != [] && resamples >= 1
    ensures p == (SampledCount(values, random, resamples) + 1) as real / (resamples + 1) as real
    ensures 1.0 / (resamples + 1) as real <= p <= 1.0
  {
    hide Goal;
    var atLeast: nat, draws: nat := 0, 0;
    for i := 0 to resamples
      invariant atLeast == SampledCount(values, random, i) && draws == i * |values|
    {
      var total := 0.0;
      for j := 0 to |values|
        invariant total == FlippedSum(values, random, i * |values|, j) && draws == i * |values| + j
      {
        total := total + if random(draws) < 0.5 then -values[j] else values[j];
        draws := draws + 1;
      }
      ReachesGoal(total, values);
      if total / |values| as real >= Mean(values) - EPSILON { atLeast := atLeast + 1; }
    }
    p := (atLeast + 1) as real / (resamples + 1) as real;
    ShareBounds(atLeast + 1, resamples + 1);
  }

  const MAX_SAFE := 9007199254740991

  /**
   * The exact test when all sign choices are within the resampling budget, the sampled one otherwise. Whichever runs,
   * and unless more than 32 values are tested exactly, the p-value is a proper probability.
   */
  method SignFlipPValue(values: seq<real>, resamples: int, random: nat -> real) returns (r: Result<real, string>)
    ensures r.Err? <==>
            values == [] || resamples < 1 || (resamples > MAX_SAFE && Pow2(|values|) > MAX_SAFE)
    ensures r.Ok? ==>
              var n := |values|;
              var exact := Pow2(n) <= MAX_SAFE && Pow2(n) <= resamples;
              var hits := if !exact then SampledCount(values, random, resamples) + 1
                          else if n <= WORD then Flips(values, n, 0.0, Goal(values))
                          else Pow2(n - WORD) * Flips(values, WORD, -Tail(values, n), Goal(values));
              && r.value == hits as real / (if exact then Pow2(n) else resamples + 1) as real
              && (!exact || n <= WORD ==> 0.0 < r.value <= 1.0)
  {
    hide Plus, Flips, Goal, Tail, FlippedSum;
    if values == [] { return Err("sign-flip test requires at least one cluster"); }
    var combinations := Pow2(|values|);
    if combinations <= MAX_SAFE && combinations <= resamples {
      var p, _ := SignFlipExact(values);
      if |values| > WORD {
        WideCount(values, Goal(values));
      }
      PositiveShare(combinations);
      return Ok(p);
    }
    if resamples < 1 || resamples > MAX_SAFE { return Err("permutation resamples must be a positive integer"); }
    var p := SignFlipSampled(values, resamples, random);
    PositiveShare(resamples + 1);
    return Ok(p);
  }

  lemma PositiveShare(c: nat)
    requires c >= 1
    ensures 1.0 / c as real > 0.0
  {
  }

  // ---------------------------------------------------------------- quantiles

  ghost predicate Ascending(xs: seq<real>) {
    forall i, j :: 0 <= i <= j < |xs| ==> xs[i] <= xs[j]
  }

  lemma PositionsOrdered(n: real, p: real, q: real)
    requires n >= 0.0 && 0.0 <= p <= q <= 1.0
    ensures 0.0 <= Times(n, p) <= Times(n, q) <= n
  {
    ProductIsNonNegative(n, p);
    ProductIsNonNegative(n, q - p);
    ProductIsNonNegative(n, 1.0 - q);
  }

  /** Where a probability falls among `n` order statistics. */
  function Position(n: nat, probability: real): (x: real)
    requires n > 0 && 0.0 <= probability <= 1.0
    ensures 0.0 <= x <= (n - 1) as real
  {
    PositionsOrdered((n - 1) as real, probability, 1.0);
    Times((n - 1) as real, probability)
  }

  /** Linear interpolation between the two nearest order statistics. */
  function Quantile(sorted: seq<real>, probability: real): real
    requires sorted != [] && 0.0 <= probability <= 1.0
  {
    Interpolated(sorted, Position(|sorted|, probability))
  }

  /** `q` lies on the straight line between the order statistics on both sides of place `(n - 1) * p`. */
  ghost predicate IsQuantile(q: real, sorted: seq<real>, p: real) {
    var x := (|sorted| - 1) as real * p;
    && 0.0 <= x <= (|sorted| - 1) as real
    && forall k: nat :: k < |sorted| && Between(k, x) ==>
         q == sorted[k] + if k + 1 < |sorted| then (x - k as real) * (sorted[k + 1] - sorted[k]) else 0.0
  }

  ghost predicate Between(k: nat, x: real) {
    k as real <= x < (k + 1) as real
  }

  lemma QuantileIs(sorted: seq<real>, p: real)
    requires sorted != [] && 0.0 <= p <= 1.0
    ensures IsQuantile(Quantile(sorted, p), sorted, p)
  {
    var x := Position(|sorted|, p);
    assert x == (|sorted| - 1) as real * p;
    forall k: nat | k < |sorted| && Between(k, x)
      ensures Interpolated(sorted, x)
              == sorted[k] + if k + 1 < |sorted| then (x - k as real) * (sorted[k + 1] - sorted[k]) else 0.0
    {
      assert k == x.Floor;
      if k + 1 < |sorted| {
        BlendIsLine(sorted[k], sorted[k + 1], x - k as real);
      }
    }
  }

  lemma BlendIsLine(a: real, b: real, w: real)
    ensures Blend(a, b, w) == a + w * (b - a)
    ensures w == 0.0 ==> Blend(a, b, w) == a
  {
    assert a * (1.0 - w) == a - a * w;
  }

  function Blend(a: real, b: real, weight: real): real {
    a * (1.0 - weight) + b * weight
  }

  function Interpolated(sorted: seq<real>, position: real): real
    requires sorted != [] && 0.0 <= position <= (|sorted| - 1) as real
  {
    var lower := position.Floor;
    if position == lower as real then sorted[lower]
    else Blend(sorted[lower], sorted[lower + 1], position - lower as real)
  }

  lemma ProductIsNonNegative(a: real, b: real)
    requires a >= 0.0 && b >= 0.0
    ensures a * b >= 0.0
  {
  }

  lemma BlendBetween(a: real, b: real, w: real)
    requires a <= b && 0.0 <= w <= 1.0
    ensures a <= Blend(a, b, w) <= b
  {
    ProductIsNonNegative(b - a, w);
    ProductIsNonNegative(b - a, 1.0 - w);
    assert Blend(a, b, w) == a + (b - a) * w == b - (b - a) * (1.0 - w);
  }

  lemma BlendMonotone(a: real, b: real, w: real, v: real)
    requires a <= b && w <= v
    ensures Blend(a, b, w) <= Blend(a, b, v)
  {
    ProductIsNonNegative(b - a, v - w);
    assert Blend(a, b, v) - Blend(a, b, w) == (b - a) * (v - w);
  }

  /** An interpolated value lies between the order statistics around it. */
  lemma InterpolatedBetween(sorted: seq<real>, x: real)
    requires sorted != [] && Ascending(sorted) && 0.0 <= x <= (|sorted| - 1) as real
    ensures sorted[x.Floor] <= Interpolated(sorted, x)
    ensures x.Floor + 1 < |sorted| ==> Interpolated(sorted, x) <= sorted[x.Floor + 1]
    ensures Interpolated(sorted, x) <= sorted[|sorted| - 1]
  {
    hide Blend;
    var lower := x.Floor;
    if x != lower as real {
      BlendBetween(sorted[lower], sorted[lower + 1], x - lower as real);
    }
  }

  lemma InterpolatedMonotone(sorted: seq<real>, x: real, y: real)
    requires sorted != [] && Ascending(sorted) && 0.0 <= x <= y <= (|sorted| - 1) as real
    ensures Interpolated(sorted, x) <= Interpolated(sorted, y)
  {
    hide Blend;
    InterpolatedBetween(sorted, x);
    InterpolatedBetween(sorted, y);
    var i, j := x.Floor, y.Floor;
    if i < j {
      assert sorted[i + 1] <= sorted[j];
    } else if x != i as real {
      BlendMonotone(sorted[i], sorted[i + 1], x - i as real, y - i as real);
    }
  }

  lemma PositionMonotone(n: nat, p: real, q: real)
    requires n > 0 && 0.0 <= p <= q <= 1.0
    ensures Position(n, p) <= Position(n, q)
  {
    hide Times;
    PositionsOrdered((n - 1) as real, p, q);
  }

  lemma FirstIsLeast(sorted: seq<real>, x: real)
    requires sorted != [] && Ascending(sorted) && 0.0 <= x <= (|sorted| - 1) as real
    ensures sorted[0] <= sorted[x.Floor]
  {
  }

  /** Quantiles are monotone in the probability and stay between the extremes. */
  lemma QuantileMonotone(sorted: seq<real>, p: real, q: real)
    requires sorted != [] && Ascending(sorted) && 0.0 <= p <= q <= 1.0
    ensures sorted[0] <= Quantile(sorted, p) <= Quantile(sorted, q) <= sorted[|sorted| - 1]
  {
    hide Position, Interpolated, Ascending;
    var x, y := Position(|sorted|, p), Position(|sorted|, q);
    PositionMonotone(|sorted|, p, q);
    FirstIsLeast(sorted, x);
    InterpolatedBetween(sorted, x);
    InterpolatedBetween(sorted, y);
    InterpolatedMonotone(sorted, x, y);
  }

  // ---------------------------------------------------------------- the clustered bootstrap

  ghost predicate Within(xs: seq<real>, low: real, high: real) {
    forall i :: 0 <= i < |xs| ==> low <= xs[i] <= high
  }

  predicate AtMost(a: real, b: real) { a <= b }

  function PickIndex(r: real, n: nat): (i: nat)
    requires 0.0 <= r < 1.0 && n > 0
    ensures i < n && i as real <= r * n as real < (i + 1) as real
  {
    PickBounds(r, n);
    (r * n as real).Floor
  }

  lemma PickBounds(r: real, n: nat)
    requires 0.0 <= r < 1.0 && n > 0
    ensures 0.0 <= r * n as real < n as real
  {
    assert (1.0 - r) * n as real > 0.0;
  }

  lemma ScaledOrder(a: real, b: real, n: nat)
    requires n > 0
    ensures a < b ==> a * n as real < b * n as real
  {
  }

  lemma TotalBetween(total: real, n: nat, low: real, high: real)
    requires n > 0 && low * n as real <= total <= high * n as real
    ensures low <= total / n as real <= high
  {
    var t := total / n as real;
    assert t * n as real == total;
    ScaledOrder(t, low, n);
    ScaledOrder(high, t, n);
  }

  /** The sum of the first `k` values drawn, with replacement, from a stretch of the stream. */
  function DrawnSum(values: seq<real>, random: nat -> real, from: nat, k: nat): real
    requires values != [] && IsRandom(random)
  {
    if k == 0 then 0.0 else DrawnSum(values, random, from, k - 1) + values[PickIndex(random(from + k - 1), |values|)]
  }

  /** The i-th resample: the mean of as many draws as there are clusters. */
  function Estimate(values: seq<real>, random: nat -> real, i: nat): real
    requires values != [] && IsRandom(random)
  {
    DrawnSum(values, random, i * |values|, |values|) / |values| as real
  }

  lemma EstimateIs(values: seq<real>, random: nat -> real, i: nat)
    requires values != [] && IsRandom(random)
    ensures Estimate(values, random, i) == DrawnSum(values, random, i * |values|, |values|) / |values| as real
    ensures Estimates(values, random, i + 1) == Estimates(values, random, i) + [Estimate(values, random, i)]
    ensures i * |values| + |values| == (i + 1) * |values|
  {
  }

  function Estimates(values: seq<real>, random: nat -> real, resamples: nat): (es: seq<real>)
    requires values != [] && IsRandom(random)
    ensures |es| == resamples
  {
    seq(resamples, i requires 0 <= i < resamples => Estimate(values, random, i))
  }

  method Resample(values: seq<real>, random: nat -> real, from: nat) returns (estimate: real, draws: nat)
    requires values != [] && IsRandom(random)
    ensures estimate == DrawnSum(values, random, from, |values|) / |values| as real && draws == from + |values|
  {
    var total := 0.0;
    draws := from;
    for k := 0 to |values|
      invariant draws == from + k && total == DrawnSum(values, random, from, k)
    {
      total := total + values[PickIndex(random(draws), |values|)];
      draws := draws + 1;
    }
    estimate := total / |values| as real;
  }

  lemma BoundsAdd(low: real, high: real, k: nat, sum: real, x: real)
    requires low * k as real <= sum <= high * k as real && low <= x <= high
    ensures low * (k + 1) as real <= sum + x <= high * (k + 1) as real
  {
    OneMore(low, k);
    OneMore(high, k);
  }

  lemma {:induction false} DrawnBetween(values: seq<real>, random: nat -> real, from: nat, k: nat, low: real,
      high: real)
    requires values != [] && IsRandom(random) && Within(values, low, high)
    ensures low * k as real <= DrawnSum(values, random, from, k) <= high * k as real
  {
    hide PickIndex;
    if k > 0 {
      DrawnBetween(values, random, from, k - 1, low, high);
      var x := values[PickIndex(random(from + k - 1), |values|)];
      BoundsAdd(low, high, k - 1, DrawnSum(values, random, from, k - 1), x);
    }
  }

  lemma EstimatesBetween(values: seq<real>, random: nat -> real, resamples: nat, low: real, high: real)
    requires values != [] && IsRandom(random) && Within(values, low, high)
    ensures Within(Estimates(values, random, resamples), low, high)
  {
    hide DrawnSum, IsRandom;
    forall i: nat | i < resamples ensures low <= Estimate(values, random, i) <= high {
      MeanBetween(values, random, i * |values|, low, high);
    }
  }

  lemma MeanBetween(values: seq<real>, random: nat -> real, from: nat, low: real, high: real)
    requires values != [] && IsRandom(random) && Within(values, low, high)
    ensures low <= DrawnSum(values, random, from, |values|) / |values| as real <= high
  {
    hide DrawnSum, IsRandom, Within;
    DrawnBetween(values, random, from, |values|, low, high);
    TotalBetween(DrawnSum(values, random, from, |values|), |values|, low, high);
  }

  lemma OneMore(x: real, i: nat)
    ensures x * (i + 1) as real == x * i as real + x
  {
  }

  lemma SortedAscends(xs: seq<real>, low: real, high: real)
    requires xs != [] && Within(xs, low, high)
    ensures var s := Sort(AtMost, xs); |s| == |xs| && Ascending(s) && Within(s, low, high)
  {
    hide Sort;
    var s := Sort(AtMost, xs);
    assert Orders(AtMost);
    SortSorts(AtMost, xs);
    forall i | 0 <= i < |s| ensures low <= s[i] <= high {
      assert s[i] in multiset(s) && s[i] in multiset(xs);
    }
    forall i, j | 0 <= i <= j < |s| ensures s[i] <= s[j] {
      assert i < j ==> AtMost(s[i], s[j]);
    }
  }

  /** Bounds on the values bound the interval, for every random stream and confidence level. */
  lemma IntervalBetween(values: seq<real>, random: nat -> real, resamples: nat, alpha: real, low: real, high: real)
    requires values != [] && IsRandom(random) && Within(values, low, high) && resamples >= 1 && 0.0 < alpha < 0.5
    ensures var sorted := Sort(AtMost, Estimates(values, random, resamples));
            sorted != [] && low <= Quantile(sorted, alpha) <= Quantile(sorted, 1.0 - alpha) <= high
  {
    hide Sort, Quantile, Estimates;
    var estimates := Estimates(values, random, resamples);
    EstimatesBetween(values, random, resamples, low, high);
    SortedAscends(estimates, low, high);
    QuantileMonotone(Sort(AtMost, estimates), alpha, 1.0 - alpha);
  }

  method ClusteredBootstrapInterval(values: seq<real>, resamples: int, confidence: real, random: nat -> real)
    returns (r: Result<(real, real), string>)
    requires IsRandom(random)
    ensures r.Err? <==> resamples < 1 || resamples > MAX_SAFE || !(0.0 < confidence < 1.0) || values == []
    ensures r.Ok? ==>
              var sorted, alpha := Sort(AtMost, Estimates(values, random, resamples)), (1.0 - confidence) / 2.0;
              && sorted != [] && r.value == (Quantile(sorted, alpha), Quantile(sorted, 1.0 - alpha))
              && IsQuantile(r.value.0, sorted, alpha) && IsQuantile(r.value.1, sorted, 1.0 - alpha)
              && r.value.0 <= r.value.1
              && forall low, high :: Within(values, low, high) ==> low <= r.value.0 && r.value.1 <= high
  {
    hide Sort, Quantile, IsQuantile, IsRandom, Estimate, Within;
    if resamples < 1 || resamples > MAX_SAFE { return Err("bootstrap resamples must be a positive integer"); }
    if !(0.0 < confidence < 1.0) { return Err("confidence level must be between zero and one"); }
    if values == [] { return Err("bootstrap requires at least one cluster"); }
    var estimates: seq<real> := [];
    var draws: nat := 0;
    for i := 0 to resamples
      invariant estimates == Estimates(values, random, i) && draws == i * |values|
    {
      EstimateIs(values, random, i);
      var estimate;
      estimate, draws := Resample(values, random, draws);
      estimates := estimates + [estimate];
    }
    var sorted := Sort(AtMost, estimates);
    var alpha := (1.0 - confidence) / 2.0;
    forall low, high | Within(values, low, high)
      ensures sorted != [] && low <= Quantile(sorted, alpha) <= Quantile(sorted, 1.0 - alpha) <= high
    {
      IntervalBetween(values, random, resamples, alpha, low, high);
    }
    var low, high := Extremes(values);
    QuantileIs(sorted, alpha);
    QuantileIs(sorted, 1.0 - alpha);
    return Ok((Quantile(sorted, alpha), Quantile(sorted, 1.0 - alpha)));
  }

  lemma Extremes(values: seq<real>) returns (low: real, high: real)
    requires values != []
    ensures Within(values, low, high)
  {
    low, high := values[0], values[0];
    for i := 0 to |values|
      invariant forall j :: 0 <= j < i ==> low <= values[j] <= high
    {
      low := if values[i] < low then values[i] else low;
      high := if values[i] > high then values[i] else high;
    }
  }

  // ---------------------------------------------------------------- shuffling

  /** A choice of swap target for every position, none past the position itself. */
  ghost predicate Choices(c: seq<nat>) {
    forall i :: 0 <= i < |c| ==> c[i] <= i
  }

  function Swapped<T>(xs: seq<T>, i: nat, j: nat): (ys: seq<T>)
    requires i < |xs| && j < |xs|
    ensures |ys| == |xs|
  {
    xs[i := xs[j]][j := xs[i]]
  }

  /** Fisher-Yates on the first |c| items: the last of them trades places with its target, then the rest. */
  ghost function Shuffled<T>(xs: seq<T>, c: seq<nat>): (ys: seq<T>)
    requires |c| <= |xs| && Choices(c)
    ensures |ys| == |xs|
    decreases |c|
  {
    if |c| <= 1 then xs else
    var k := |c| - 1;
    Shuffled(Swapped(xs, k, c[k]), c[..k])
  }

  lemma SwappedPermutes<T>(xs: seq<T>, i: nat, j: nat)
    requires i < |xs| && j < |xs|
    ensures multiset(Swapped(xs, i, j)) == multiset(xs)
  {
  }

  /** Whatever the choices, the shuffle permutes the first |c| items and leaves the rest in place. */
  lemma {:induction false} ShuffledPermutes<T>(xs: seq<T>, c: seq<nat>)
    requires |c| <= |xs| && Choices(c)
    ensures multiset(Shuffled(xs, c)) == multiset(xs) && Shuffled(xs, c)[|c|..] == xs[|c|..]
    decreases |c|
  {
    if |c| > 1 {
      var k := |c| - 1;
      var zs := Swapped(xs, k, c[k]);
      SwappedPermutes(xs, k, c[k]);
      ShuffledPermutes(zs, c[..k]);
      assert Shuffled(xs, c)[|c|..] == Shuffled(zs, c[..k])[k..][1..];
      assert zs[k..][1..] == xs[|c|..];
    }
  }

  /** The last of the shuffled items is the one its target named. */
  lemma LastPlaced<T>(xs: seq<T>, c: seq<nat>)
    requires 1 < |c| <= |xs| && Choices(c)
    ensures var k := |c| - 1;
            && Shuffled(xs, c)[k] == xs[c[k]]
            && Shuffled(xs, c) == Shuffled(Swapped(xs, k, c[k]), c[..k])
  {
    var k := |c| - 1;
    var zs := Swapped(xs, k, c[k]);
    ShuffledPermutes(zs, c[..k]);
    assert Shuffled(zs, c[..k])[k..][0] == zs[k..][0];
  }

  lemma SwapKeepsDistinct<T(!new)>(xs: seq<T>, i: nat, j: nat)
    requires i < |xs| && j < |xs| && Distinct(xs)
    ensures Distinct(Swapped(xs, i, j))
  {
  }

  /** Different choices give different orders: the shuffle of distinct items loses no randomness. */
  lemma {:induction false} ShuffleIsInjective<T(!new)>(xs: seq<T>, c: seq<nat>, d: seq<nat>)
    requires |c| == |d| <= |xs| && Choices(c) && Choices(d) && Distinct(xs)
    requires Shuffled(xs, c) == Shuffled(xs, d)
    ensures c == d
    decreases |c|
  {
    hide Shuffled, Swapped;
    if |c| > 1 {
      var k := |c| - 1;
      LastPlaced(xs, c);
      LastPlaced(xs, d);
      assert xs[c[k]] == xs[d[k]] && c[k] == d[k];
      SwapKeepsDistinct(xs, k, c[k]);
      ShuffleIsInjective(Swapped(xs, k, c[k]), c[..k], d[..k]);
      assert c == c[..k] + [c[k]] && d == d[..k] + [d[k]];
    }
  }

  /** Bringing the wanted item to place `k` leaves the same rearrangement to reach, one item shorter. */
  lemma SwapAgrees<T>(xs: seq<T>, k: nat, ys: seq<T>, j: nat)
    requires j <= k < |xs| == |ys| && xs[k + 1..] == ys[k + 1..] && multiset(xs[..k + 1]) == multiset(ys[..k + 1])
    requires xs[j] == ys[k]
    ensures var zs := Swapped(xs, k, j); zs[k..] == ys[k..] && multiset(zs[..k]) == multiset(ys[..k])
  {
    var zs := Swapped(xs, k, j);
    assert zs[k..] == [ys[k]] + xs[k + 1..] && ys[k..] == [ys[k]] + ys[k + 1..];
    assert multiset(zs[..k]) == multiset(ys[..k]) by {
      SwappedPermutes(xs[..k + 1], k, j);
      SwappedPrefix(xs, k, j);
      assert ys[..k + 1] == ys[..k] + [ys[k]];
      BagsCancelOne(zs[..k], ys[..k], ys[k]);
    }
  }

  lemma SwappedPrefix<T>(xs: seq<T>, k: nat, j: nat)
    requires j <= k < |xs|
    ensures Swapped(xs[..k + 1], k, j) == Swapped(xs, k, j)[..k + 1] == Swapped(xs, k, j)[..k] + [xs[j]]
  {
  }

  lemma BagsCancelOne<T>(a: seq<T>, b: seq<T>, x: T)
    requires multiset(a + [x]) == multiset(b + [x])
    ensures multiset(a) == multiset(b)
  {
    assert multiset(a) == multiset(a + [x]) - multiset{x};
    assert multiset(b) == multiset(b + [x]) - multiset{x};
  }

  lemma Holding<T>(xs: seq<T>, ys: seq<T>, k: nat) returns (j: nat)
    requires k < |xs| == |ys| && multiset(xs[..k + 1]) == multiset(ys[..k + 1])
    ensures j <= k && xs[j] == ys[k]
  {
    assert ys[k] in ys[..k + 1] && ys[k] in multiset(xs[..k + 1]);
    j :| j < k + 1 && xs[j] == ys[k];
  }

  /** Every order is reached: any rearrangement of the first `n` items comes from some choices. */
  lemma {:induction false} ShuffleReachesAll<T(!new)>(xs: seq<T>, n: nat, ys: seq<T>) returns (c: seq<nat>)
    requires n <= |xs| == |ys| && xs[n..] == ys[n..] && multiset(xs[..n]) == multiset(ys[..n])
    ensures |c| == n && Choices(c) && Shuffled(xs, c) == ys
    decreases n
  {
    hide Swapped, Shuffled;
    if n <= 1 {
      c := if n == 0 then [] else [0];
      NothingToShuffle(xs, c, ys);
    } else {
      var k := n - 1;
      var j := Holding(xs, ys, k);
      SwapAgrees(xs, k, ys, j);
      var rest := ShuffleReachesAll(Swapped(xs, k, j), k, ys);
      c := rest + [j];
      assert c[..k] == rest && c[k] == j;
      LastPlaced(xs, c);
    }
  }

  lemma NothingToShuffle<T>(xs: seq<T>, c: seq<nat>, ys: seq<T>)
    requires |c| <= 1 && |c| <= |xs| == |ys| && Choices(c)
    requires xs[|c|..] == ys[|c|..] && multiset(xs[..|c|]) == multiset(ys[..|c|])
    ensures Shuffled(xs, c) == ys
  {
    assert xs == xs[..|c|] + xs[|c|..] && ys == ys[..|c|] + ys[|c|..];
    if |c| == 1 {
      assert xs[..1] == [xs[0]] && ys[..1] == [ys[0]] && ys[0] in multiset(xs[..1]);
    }
  }

  ghost function Target(random: nat -> real, n: nat, i: nat): (t: nat)
    requires IsRandom(random) && i < n
    ensures t <= i
  {
    PickIndex(random(n - 1 - i), i + 1)
  }

  /** The targets a random stream gives, read from the last position down. */
  ghost function Targets(random: nat -> real, n: nat): (c: seq<nat>)
    requires IsRandom(random)
    ensures |c| == n && Choices(c)
    ensures forall i :: 0 <= i < n ==> c[i] == Target(random, n, i)
  {
    seq<nat>(n, i requires 0 <= i < n => Target(random, n, i))
  }

  lemma ShuffleStep<T>(xs: seq<T>, c: seq<nat>, index: nat)
    requires 0 < index < |c| <= |xs| && Choices(c)
    ensures Shuffled(xs, c[..index + 1]) == Shuffled(Swapped(xs, index, c[index]), c[..index])
  {
    assert c[..index + 1][..index] == c[..index];
  }

  method Copied<T>(values: seq<T>) returns (output: array<T>)
    ensures fresh(output) && output[..] == values
  {
    output := new T[|values|](i requires 0 <= i < |values| => values[i]);
    assert forall i :: 0 <= i < |values| ==> output[i] == values[i];
  }

  method ShuffledArms<T>(values: seq<T>, random: nat -> real) returns (shuffled: seq<T>)
    requires IsRandom(random)
    ensures shuffled == Shuffled(values, Targets(random, |values|))
    ensures multiset(shuffled) == multiset(values)
  {
    hide PickIndex, Shuffled, Targets;
    var n := |values|;
    ghost var c := Targets(random, n);
    ShuffledPermutes(values, c);
    if values == [] { return values; }
    var output := Copied(values);
    assert c[..n] == c;
    var index := n - 1;
    while index > 0
      invariant 0 <= index < output.Length == n
      invariant Shuffled(output[..], c[..index + 1]) == Shuffled(values, c)
    {
      var target := PickIndex(random(n - 1 - index), index + 1);
      ghost var before := output[..];
      output[index], output[target] := output[target], output[index];
      assert output[..] == Swapped(before, index, c[index]);
      ShuffleStep(before, c, index);
      index := index - 1;
    }
    NothingToShuffle(output[..], c[..1], output[..]);
    shuffled := output[..];
  }
}
