/**
 * The seedable random source (LoreGen.Utilities.RandomProvider).
 *
 * `System.Random` is foreign: its k-th sample after seeding with `seed` is modelled as
 * `source(seed, k)`, an arbitrary value in [0, 1). A provider remembers how many samples it has
 * taken, so two providers with the same seed and the same call sequence see the same samples.
 */
module Randomness {
  import opened Wrappers
  import opened Seqs

  /** A sample source that always yields 0; it only witnesses that `DrawSource` is inhabited. */
  function ZeroSource(seed: int, call: nat): real {
    0.0
  }

  /** The samples `System.Random` yields: for each seed and call index, a value in [0, 1). */
  type DrawSource = f: (int, nat) -> real | forall seed: int, call: nat :: 0.0 <= f(seed, call) < 1.0
    witness ZeroSource

  /** `Random.Next(n)` for a sample `r`: the integer part of `r * n`. */
  function ScaledBelow(n: nat, r: real): (k: int)
    requires 0.0 <= r < 1.0
    ensures k as real <= r * n as real < k as real + 1.0
    ensures n > 0 ==> 0 <= k < n
    ensures n == 0 ==> k == 0
  {
    assert 0.0 <= r * n as real <= n as real by {
      assert r * n as real <= 1.0 * n as real;
    }
    (r * n as real).Floor
  }

  /** `Random.Next(lo, hi)` for a sample `r`: `lo` plus the integer part of `r * (hi - lo)`. */
  function Between(lo: int, hi: int, r: real): (k: int)
    requires lo <= hi && 0.0 <= r < 1.0
    ensures lo < hi ==> lo <= k < hi
    ensures lo == hi ==> k == lo
  {
    lo + ScaledBelow(hi - lo, r)
  }

  /** `Choose` for a sample `r`: the element at `Next(|items|)`; an empty input is an `ArgumentException`. */
  function Pick<T>(items: seq<T>, r: real): (c: Result<T>)
    requires 0.0 <= r < 1.0
    ensures c.Success? <==> |items| > 0
    ensures c.Success? ==> c.value in items
    ensures c.Failure? ==> c.error == ArgumentError("items")
  {
    if |items| == 0 then Failure(ArgumentError("items"))
    else Success(items[ScaledBelow(|items|, r)])
  }

  /** The sum of the first `n` weights. */
  function PrefixSum(w: seq<real>, n: nat): real
    requires n <= |w|
  {
    if n == 0 then 0.0 else PrefixSum(w, n - 1) + w[n - 1]
  }

  /** `weights.Sum()`. */
  function Total(w: seq<real>): real {
    PrefixSum(w, |w|)
  }

  /** The cumulative weight after item `i` meets or exceeds `value`. */
  predicate Reaches(w: seq<real>, value: real, i: nat)
    requires i < |w|
  {
    value <= PrefixSum(w, i + 1)
  }

  /** The least index from `i` on whose cumulative weight reaches `value`, or the last index if none does. */
  function FirstReaching(w: seq<real>, value: real, i: nat): (k: nat)
    requires i < |w|
    ensures i <= k < |w|
    ensures forall j :: i <= j < k ==> !Reaches(w, value, j)
    ensures Reaches(w, value, k) || k == |w| - 1
    decreases |w| - i
  {
    if Reaches(w, value, i) || i == |w| - 1 then i else FirstReaching(w, value, i + 1)
  }

  /**
   * The index `ChooseWeighted` returns for the scaled draw `value`: the least index whose cumulative
   * weight reaches `value`, falling back to the last index when none does.
   */
  function WeightedIndex(w: seq<real>, value: real): (k: nat)
    requires |w| > 0
    ensures k < |w|
    ensures forall j :: 0 <= j < k ==> !Reaches(w, value, j)
    ensures Reaches(w, value, k) || k == |w| - 1
  {
    FirstReaching(w, value, 0)
  }

  /** The three properties of `WeightedIndex` determine it. */
  lemma {:induction false} WeightedIndexUnique(w: seq<real>, value: real, k: nat)
    requires k < |w|
    requires forall j :: 0 <= j < k ==> !Reaches(w, value, j)
    requires Reaches(w, value, k) || k == |w| - 1
    ensures WeightedIndex(w, value) == k
  {
  }

  /** `NextFloat() * totalWeight`. */
  function ScaledDraw(r: real, total: real): real {
    Scaled(r, total, 1)
  }

  /**
   * `r * total`, reached after `steps` recursive steps. The one step `ScaledDraw` takes keeps this
   * nonlinear product out of the proofs that only pass a weighted choice along;
   * `ScaledDrawIsProduct` states it where a proof needs it.
   */
  function Scaled(r: real, total: real, steps: nat): real
    decreases steps
  {
    if steps == 0 then r * total else Scaled(r, total, steps - 1)
  }

  /** The scaled draw is the product of the sample and the total weight. */
  lemma ScaledDrawIsProduct(r: real, total: real)
    ensures ScaledDraw(r, total) == r * total
  {
    assert Scaled(r, total, 0) == r * total;
  }

  /**
   * `ChooseWeighted(items, weights)` for a sample `r`: a count mismatch is an `ArgumentException`
   * with no parameter name (written ""), an empty list one for "items"; otherwise the item at
   * `WeightedIndex(weights, ScaledDraw(r, Total(weights)))`.
   */
  function WeightedChoice<T>(items: seq<T>, weights: seq<real>, r: real): (c: Result<T>)
    ensures c.Success? <==> |items| == |weights| && |items| > 0
    ensures |items| != |weights| ==> c == Failure(ArgumentError(""))
    ensures |items| == |weights| == 0 ==> c == Failure(ArgumentError("items"))
    ensures c.Success? ==> c.value in items
  {
    if |items| != |weights| then Failure(ArgumentError(""))
    else if |items| == 0 then Failure(ArgumentError("items"))
    else Success(items[WeightedIndex(weights, ScaledDraw(r, Total(weights)))])
  }

  /** No weight is negative. */
  predicate NonNegative(w: seq<real>) {
    forall i :: 0 <= i < |w| ==> w[i] >= 0.0
  }

  /** With non-negative weights the cumulative weight never decreases. */
  lemma {:induction false} PrefixSumMonotone(w: seq<real>, i: nat, j: nat)
    requires NonNegative(w) && i <= j <= |w|
    ensures PrefixSum(w, i) <= PrefixSum(w, j)
    decreases j
  {
    if i < j {
      PrefixSumMonotone(w, i, j - 1);
    }
  }

  /** With non-negative weights and a sample in [0, 1), the scaled draw lies in [0, total]. */
  lemma DrawWithinTotal(w: seq<real>, r: real)
    requires NonNegative(w) && 0.0 <= r < 1.0
    ensures 0.0 <= ScaledDraw(r, Total(w)) <= Total(w)
  {
    PrefixSumMonotone(w, 0, |w|);
    ScaleWithin(r, Total(w));
  }

  /** A fraction in [0, 1) of a non-negative total lies in [0, total]. */
  lemma ScaleWithin(r: real, total: real)
    requires 0.0 <= r < 1.0 && 0.0 <= total
    ensures 0.0 <= ScaledDraw(r, total) <= total
  {
    ScaledDrawIsProduct(r, total);
    assert r * total <= 1.0 * total;
  }

  /**
   * The draws that select item `k` form the interval (PrefixSum(k), PrefixSum(k + 1)], closed at 0
   * for the first item: with non-negative weights, a scaled draw in [0, total] selects `k` exactly
   * when it lies there.
   */
  lemma {:induction false} WeightedIndexInterval(w: seq<real>, value: real, k: nat)
    requires NonNegative(w) && k < |w|
    requires 0.0 <= value <= Total(w)
    ensures WeightedIndex(w, value) == k <==>
      (k == 0 || PrefixSum(w, k) < value) && value <= PrefixSum(w, k + 1)
  {
    var m := WeightedIndex(w, value);
    if m == k {
      assert Reaches(w, value, k);
      if k > 0 {
        assert !Reaches(w, value, k - 1);
      }
    }
    if (k == 0 || PrefixSum(w, k) < value) && value <= PrefixSum(w, k + 1) {
      forall j | 0 <= j < k ensures !Reaches(w, value, j) {
        PrefixSumMonotone(w, j + 1, k);
      }
      WeightedIndexUnique(w, value, k);
    }
  }

  /** With non-negative weights, an item of weight 0 after the first is never chosen. */
  lemma {:induction false} ZeroWeightUnreachable(w: seq<real>, r: real, k: nat)
    requires NonNegative(w) && 0.0 <= r < 1.0
    requires 0 < k < |w| && w[k] == 0.0
    ensures WeightedIndex(w, ScaledDraw(r, Total(w))) != k
  {
    DrawWithinTotal(w, r);
    WeightedIndexInterval(w, ScaledDraw(r, Total(w)), k);
  }

  /** When all weights are 0 the total is 0. */
  lemma {:induction false} AllZeroPrefix(w: seq<real>, n: nat)
    requires n <= |w| && forall i :: 0 <= i < |w| ==> w[i] == 0.0
    ensures PrefixSum(w, n) == 0.0
  {
    if n > 0 {
      AllZeroPrefix(w, n - 1);
    }
  }

  /** When every weight is 0 the scaled draw is 0, which the first item already reaches: the first item is chosen. */
  lemma AllZeroWeightsPickFirst(w: seq<real>, r: real)
    requires |w| > 0 && forall i :: 0 <= i < |w| ==> w[i] == 0.0
    ensures WeightedIndex(w, ScaledDraw(r, Total(w))) == 0
  {
    AllZeroPrefix(w, |w|);
    AllZeroPrefix(w, 1);
    ScaledDrawIsProduct(r, Total(w));
    WeightedIndexUnique(w, ScaledDraw(r, Total(w)), 0);
  }

  /** A zero weight in first position is chosen by the sample 0, since 0 <= 0. */
  lemma ZeroWeightFirstReachable()
    ensures WeightedIndex([0.0, 1.0], ScaledDraw(0.0, Total([0.0, 1.0]))) == 0
  {
    ScaledDrawIsProduct(0.0, Total([0.0, 1.0]));
    assert Reaches([0.0, 1.0], 0.0, 0);
  }

  /** A provider: its seed, the sample source standing for its `System.Random`, and the samples taken so far. */
  class RandomProvider {
    const Seed: int
    const source: DrawSource
    var calls: nat

    /** `new RandomProvider(seed)`. */
    constructor (seed: int, source: DrawSource)
      ensures Seed == seed && this.source == source && calls == 0
    {
      Seed := seed;
      this.source := source;
      calls := 0;
    }

    /** The sample the next draw will return. */
    function NextSample(): (r: real)
      reads this
      ensures 0.0 <= r < 1.0
    {
      source(Seed, calls)
    }

    /** `Next(maxValue)`: an integer in [0, maxValue); a negative bound is an `ArgumentOutOfRangeException`. */
    method Next(maxValue: int) returns (r: Result<int>)
      modifies this
      ensures maxValue < 0 ==> r == Failure(ArgumentOutOfRange("maxValue")) && calls == old(calls)
      ensures maxValue >= 0 ==> r == Success(ScaledBelow(maxValue, old(NextSample()))) && calls == old(calls) + 1
      ensures r.Success? && maxValue > 0 ==> 0 <= r.value < maxValue
    {
      if maxValue < 0 {
        return Failure(ArgumentOutOfRange("maxValue"));
      }
      var sample := NextSample();
      calls := calls + 1;
      return Success(ScaledBelow(maxValue, sample));
    }

    /** `Next(minValue, maxValue)`: an integer in [minValue, maxValue); `minValue > maxValue` is an `ArgumentOutOfRangeException`. */
    method NextInRange(minValue: int, maxValue: int) returns (r: Result<int>)
      modifies this
      ensures minValue > maxValue ==> r == Failure(ArgumentOutOfRange("minValue")) && calls == old(calls)
      ensures minValue <= maxValue ==>
        r == Success(Between(minValue, maxValue, old(NextSample()))) && calls == old(calls) + 1
      ensures r.Success? && minValue < maxValue ==> minValue <= r.value < maxValue
    {
      if minValue > maxValue {
        return Failure(ArgumentOutOfRange("minValue"));
      }
      var sample := NextSample();
      calls := calls + 1;
      return Success(Between(minValue, maxValue, sample));
    }

    /** `NextDouble`: the next sample, in [0, 1). */
    method NextDouble() returns (r: real)
      modifies this
      ensures r == old(NextSample()) && 0.0 <= r < 1.0
      ensures calls == old(calls) + 1
    {
      r := NextSample();
      calls := calls + 1;
    }

    /** `NextFloat`: the next sample; the narrowing to `float` is not modelled. */
    method NextFloat() returns (r: real)
      modifies this
      ensures r == old(NextSample()) && 0.0 <= r < 1.0
      ensures calls == old(calls) + 1
    {
      r := NextDouble();
    }

    /** `Choose(IList<T>)`: an element of a non-empty list; draws only when the list is non-empty. */
    method Choose<T>(items: seq<T>) returns (r: Result<T>)
      modifies this
      ensures r == Pick(items, old(NextSample()))
      ensures calls == old(calls) + (if |items| > 0 then 1 else 0)
    {
      if |items| == 0 {
        return Failure(ArgumentError("items"));
      }
      var k := Next(|items|);
      return Success(items[k.value]);
    }

    /** `Choose(T[])`: as the list overload, on the array's elements. */
    method ChooseFromArray<T>(items: array<T>) returns (r: Result<T>)
      modifies this
      ensures r == Pick(items[..], old(NextSample()))
      ensures calls == old(calls) + (if items.Length > 0 then 1 else 0)
    {
      if items.Length == 0 {
        return Failure(ArgumentError("items"));
      }
      var k := Next(items.Length);
      return Success(items[k.value]);
    }

    /**
     * `ChooseWeighted(items, weights)`: after the two argument checks, one sample scaled by the
     * total weight, then a walk over the cumulative weights returning the first item that reaches
     * it, or the last item.
     */
    method ChooseWeighted<T>(items: seq<T>, weights: seq<real>) returns (r: Result<T>)
      modifies this
      ensures r == WeightedChoice(items, weights, old(NextSample()))
      ensures calls == old(calls) + (if r.Success? then 1 else 0)
    {
      if |items| != |weights| {
        return Failure(ArgumentError(""));
      }
      if |items| == 0 {
        return Failure(ArgumentError("items"));
      }
      var totalWeight := Total(weights);
      var sample := NextFloat();
      var randomValue := ScaledDraw(sample, totalWeight);
      ghost var chosen := WeightedIndex(weights, randomValue);
      var cumulativeWeight := 0.0;
      var i := 0;
      while i < |items|
        invariant 0 <= i <= |items|
        invariant cumulativeWeight == PrefixSum(weights, i)
        invariant forall j :: 0 <= j < i ==> !Reaches(weights, randomValue, j)
      {
        cumulativeWeight := cumulativeWeight + weights[i];
        if randomValue <= cumulativeWeight {
          WeightedIndexUnique(weights, randomValue, i);
          assert chosen == i;
          return Success(items[i]);
        }
        i := i + 1;
      }
      WeightedIndexUnique(weights, randomValue, |items| - 1);
      return Success(items[|items| - 1]);
    }

    /** `Chance(p)`: the next sample is below `p`; always true for p >= 1 and always false for p <= 0. */
    method Chance(probability: real) returns (c: bool)
      modifies this
      ensures c == (old(NextSample()) < probability)
      ensures probability >= 1.0 ==> c
      ensures probability <= 0.0 ==> !c
      ensures calls == old(calls) + 1
    {
      var sample := NextFloat();
      c := sample < probability;
    }
  }

  /**
   * Two providers built with the same seed and source return the same values for the same calls,
   * shown here for `Next` followed by `ChooseWeighted`. The same holds for every call sequence:
   * each operation's result is a function of `source(seed, calls)`, and the number of samples it
   * takes depends only on its arguments and that result.
   */
  method SameSeedSameDraws(source: DrawSource, seed: int, bound: int, weights: seq<real>)
    returns (first: Result<int>, second: Result<int>, pickA: Result<nat>, pickB: Result<nat>)
    ensures first == second && pickA == pickB
  {
    var p := new RandomProvider(seed, source);
    var q := new RandomProvider(seed, source);
    var indices := seq(|weights|, i => i);
    first := p.Next(bound);
    pickA := p.ChooseWeighted(indices, weights);
    second := q.Next(bound);
    pickB := q.ChooseWeighted(indices, weights);
  }
}
