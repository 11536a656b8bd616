/** The time-interpolated Bayesian model combination of combine_forecasts.py.

    The forecasters are sportsbooks quoting a home-win probability. Anchors are lead
    times (hours before the game) at which a posterior sample of combination weight
    vectors was estimated. For a query time `t` the two bracketing anchors are located
    by clamped linear interpolation of the anchor index; every posterior draw of both
    anchors turns the available quotes into one combined forecast; the draws are pooled,
    each carrying an equal share of its anchor's interpolation weight; and the combined
    estimate is the mass-weighted mean of the pool, with a credible interval read off its
    weighted cumulative distribution. */
module Combination {
  import opened Seqs
  import opened Interp1d
  import opened Forecast
  import opened WeightedSamples

  /** The anchor lead times: at least two (the interpolator needs two points) and
      strictly increasing (`np.sort(unique(t))`). */
  ghost predicate Anchors(ts: seq<real>)
  {
    |ts| >= 2 && StrictlyIncreasing(ts)
  }

  /** `np.arange(n)` */
  function Arange(n: nat): (ys: seq<real>)
    ensures |ys| == n && forall i :: 0 <= i < n ==> ys[i] == i as real
  {
    seq(n, i => i as real)
  }

  function Min(a: real, b: real): real { if a <= b then a else b }
  function Max(a: real, b: real): real { if a >= b then a else b }

  /** `interp_func(t)`: the anchor index interpolated linearly in `t` (extrapolated
      outside the anchors), then clamped to `[0, K-1]`. */
  function FractionalIndex(ts: seq<real>, t: real): (x: real)
    requires Anchors(ts)
    ensures 0.0 <= x <= (|ts| - 1) as real
  {
    Max(Min(Extrapolated(ts, Arange(|ts|), t), (|ts| - 1) as real), 0.0)
  }

  /** `int(np.ceil(x))` */
  function Ceil(x: real): (c: int)
    ensures x <= c as real < x + 1.0
  {
    if x.Floor as real == x then x.Floor else x.Floor + 1
  }

  /** The result of `get_timepoint_weights`: the left and right anchor indices and the
      time weight each receives. */
  datatype Bracket = Bracket(it1: nat, it2: nat, wt1: real, wt2: real)

  /** `get_timepoint_weights(t)`. */
  function TimepointWeights(ts: seq<real>, t: real): (b: Bracket)
    requires Anchors(ts)
    ensures b.it1 <= b.it2 < |ts| && b.it2 <= b.it1 + 1
  {
    var x := FractionalIndex(ts, t);
    var it1, it2 := x.Floor, Ceil(x);
    if it1 == it2 then Bracket(it1, it2, 1.0, 0.0)
    else
      var wt2 := (t - ts[it1]) / (ts[it2] - ts[it1]);
      Bracket(it1, it2, 1.0 - wt2, wt2)
  }

  lemma FractionBelow(a: real, x: real, b: real)
    requires x <= a < b
    ensures (x - a) / (b - a) <= 0.0
  {
    var r := (x - a) / (b - a);
    assert r * (b - a) == x - a;
  }

  lemma FractionAbove(a: real, x: real, b: real)
    requires a < b <= x
    ensures (x - a) / (b - a) >= 1.0
  {
    var r := (x - a) / (b - a);
    assert (r - 1.0) * (b - a) == x - b;
  }

  lemma FractionInside(a: real, x: real, b: real)
    requires a < x < b
    ensures 0.0 < (x - a) / (b - a) < 1.0
  {
    PositiveQuotient(x - a, b - a);
    PositiveQuotient(b - x, b - a);
    assert (x - a) / (b - a) + (b - x) / (b - a) == 1.0;
  }

  lemma SelfQuotient(d: real)
    requires d != 0.0
    ensures d / d == 1.0
  {
  }

  lemma PositiveQuotient(p: real, q: real)
    requires p > 0.0 && q > 0.0
    ensures p / q > 0.0
  {
  }

  /** The three regimes of the anchor-index interpolator: clamped below, clamped above,
      and the index of the segment the time falls in plus the fraction covered. */
  lemma FractionalIndexCases(ts: seq<real>, t: real)
    requires Anchors(ts)
    ensures t <= ts[0] ==> FractionalIndex(ts, t) == 0.0
    ensures t >= ts[|ts| - 1] ==> FractionalIndex(ts, t) == (|ts| - 1) as real
    ensures ts[0] < t < ts[|ts| - 1] ==>
      var i := Segment(ts, t);
      ts[i - 1] < t <= ts[i] &&
      FractionalIndex(ts, t) == (i - 1) as real + (t - ts[i - 1]) / (ts[i] - ts[i - 1])
  {
    var n := |ts|;
    var i := Segment(ts, t);
    var r := (t - ts[i - 1]) / (ts[i] - ts[i - 1]);
    assert Extrapolated(ts, Arange(n), t) == (i - 1) as real + r;
    if t <= ts[0] {
      FractionBelow(ts[0], t, ts[1]);
    } else if t >= ts[n - 1] {
      assert i == n - 1;
      FractionAbove(ts[n - 2], t, ts[n - 1]);
    } else {
      FractionBounds(ts[i - 1], t, ts[i]);
    }
  }

  lemma FloorOfSplit(k: int, r: real)
    requires 0.0 < r < 1.0
    ensures (k as real + r).Floor == k && Ceil(k as real + r) == k + 1
  {
  }

  /** A time on the right end of its segment sits on that anchor. */
  lemma BracketAtSegmentEnd(ts: seq<real>, t: real)
    requires Anchors(ts) && ts[0] < t < ts[|ts| - 1] && t == ts[Segment(ts, t)]
    ensures TimepointWeights(ts, t) == Bracket(Segment(ts, t), Segment(ts, t), 1.0, 0.0)
  {
    FractionalIndexCases(ts, t);
    var i := Segment(ts, t);
    SelfQuotient(ts[i] - ts[i - 1]);
    assert FractionalIndex(ts, t) == i as real;
  }

  /** A time strictly inside its segment splits the weight between the segment's ends. */
  lemma BracketInsideSegment(ts: seq<real>, t: real)
    requires Anchors(ts) && ts[0] < t < ts[|ts| - 1] && t < ts[Segment(ts, t)]
    ensures var i := Segment(ts, t);
      var wt2 := (t - ts[i - 1]) / (ts[i] - ts[i - 1]);
      TimepointWeights(ts, t) == Bracket(i - 1, i, 1.0 - wt2, wt2) && 0.0 < wt2 < 1.0
  {
    FractionalIndexCases(ts, t);
    var i := Segment(ts, t);
    var r := (t - ts[i - 1]) / (ts[i] - ts[i - 1]);
    FractionInside(ts[i - 1], t, ts[i]);
    FloorOfSplit(i - 1, r);
  }

  /** Outside the anchor range the lookup clamps to the nearest end anchor and never
      extrapolates. */
  lemma TimepointWeightsClamped(ts: seq<real>, t: real)
    requires Anchors(ts)
    ensures t <= ts[0] ==> TimepointWeights(ts, t) == Bracket(0, 0, 1.0, 0.0)
    ensures t >= ts[|ts| - 1] ==> TimepointWeights(ts, t) == Bracket(|ts| - 1, |ts| - 1, 1.0, 0.0)
  {
    FractionalIndexCases(ts, t);
  }

  /** On an anchor, all the time weight goes to that anchor. */
  lemma TimepointWeightsOnAnchor(ts: seq<real>, t: real, k: nat)
    requires Anchors(ts) && k < |ts| && ts[k] == t
    ensures TimepointWeights(ts, t) == Bracket(k, k, 1.0, 0.0)
  {
    FractionalIndexCases(ts, t);
    var n := |ts|;
    if 0 < k < n - 1 {
      var i := Segment(ts, t);
      assert i == k;
      BracketAtSegmentEnd(ts, t);
    }
  }

  /** Strictly between two consecutive anchors, the weight is split linearly between
      them. */
  lemma TimepointWeightsBetween(ts: seq<real>, t: real, k: nat)
    requires Anchors(ts) && k + 1 < |ts| && ts[k] < t < ts[k + 1]
    ensures var b := TimepointWeights(ts, t);
      && b.it1 == k && b.it2 == k + 1
      && b.wt2 == (t - ts[k]) / (ts[k + 1] - ts[k])
      && b.wt1 + b.wt2 == 1.0
      && 0.0 < b.wt1 < 1.0 && 0.0 < b.wt2 < 1.0
  {
    FractionalIndexCases(ts, t);
    var i := Segment(ts, t);
    assert i == k + 1;
    BracketInsideSegment(ts, t);
  }

  /** Whatever the time, the two weights are a convex pair, and a split bracket has the
      time strictly inside it. */
  lemma TimepointWeightsConvex(ts: seq<real>, t: real)
    requires Anchors(ts)
    ensures var b := TimepointWeights(ts, t);
      && b.wt1 + b.wt2 == 1.0 && 0.0 <= b.wt1 <= 1.0 && 0.0 <= b.wt2 <= 1.0
      && (b.it1 != b.it2 ==> ts[b.it1] < t < ts[b.it2])
  {
    FractionalIndexCases(ts, t);
    var n := |ts|;
    if ts[0] < t < ts[n - 1] {
      if t == ts[Segment(ts, t)] {
        BracketAtSegmentEnd(ts, t);
      } else {
        BracketInsideSegment(ts, t);
      }
    }
  }

  /** A posterior sample of weight vectors over `m` forecasters: at least one draw, each
      of length `m` with nonnegative entries. */
  ghost predicate DrawSample(draws: seq<seq<real>>, m: nat)
  {
    |draws| >= 1 && forall i :: 0 <= i < |draws| ==> |draws[i]| == m && NonNegative(draws[i])
  }

  /** What `__init__` establishes: the anchors, and one posterior sample per anchor. */
  ghost predicate WellFormed(ts: seq<real>, dist: seq<seq<seq<real>>>, m: nat)
  {
    Anchors(ts) && |dist| == |ts| && forall k :: 0 <= k < |dist| ==> DrawSample(dist[k], m)
  }

  /** Under every draw, some available forecaster carries weight. */
  ghost predicate Quoted(draws: seq<seq<real>>, v: seq<int>)
  {
    forall i :: 0 <= i < |draws| ==> |draws[i]| == |v| && AvailableWeight(draws[i], v) != 0.0
  }

  /** ...at both anchors that bracket `t`: the combination divides by that weight with no
      guard. */
  ghost predicate Covered(ts: seq<real>, dist: seq<seq<seq<real>>>, v: seq<int>, t: real)
    requires Anchors(ts) && |dist| == |ts|
  {
    var b := TimepointWeights(ts, t);
    Quoted(dist[b.it1], v) && Quoted(dist[b.it2], v)
  }

  ghost predicate CombineInputs(ts: seq<real>, dist: seq<seq<seq<real>>>, v: seq<int>, f: seq<real>, t: real)
  {
    WellFormed(ts, dist, |v|) && |f| == |v| && IsAvailability(v) && Covered(ts, dist, v, t)
  }

  /** `np.sum(w_dist*v*f, axis=1) / np.sum(w_dist*v, axis=1)`: the combined forecast under
      each draw of one anchor. */
  function DrawForecasts(draws: seq<seq<real>>, v: seq<int>, f: seq<real>): (xs: seq<real>)
    requires Quoted(draws, v) && |f| == |v|
    ensures |xs| == |draws|
  {
    seq(|draws|, i requires 0 <= i < |draws| => CombinedForecast(draws[i], v, f))
  }

  /** One anchor's part of the pool: each draw's forecast carrying the mass `wt / n`. */
  function AnchorSamples(xs: seq<real>, wt: real): (s: seq<Sample>)
    requires |xs| >= 1
    ensures |s| == |xs| && forall i :: 0 <= i < |s| ==> s[i] == Sample(xs[i], wt / |xs| as real)
  {
    seq(|xs|, i requires 0 <= i < |xs| => Sample(xs[i], wt / |xs| as real))
  }

  /** `f_bar_dist` paired with `sample_weights`, before sorting. */
  function Pool(ts: seq<real>, dist: seq<seq<seq<real>>>, v: seq<int>, f: seq<real>, t: real): seq<Sample>
    requires CombineInputs(ts, dist, v, f, t)
  {
    var b := TimepointWeights(ts, t);
    AnchorSamples(DrawForecasts(dist[b.it1], v, f), b.wt1)
      + AnchorSamples(DrawForecasts(dist[b.it2], v, f), b.wt2)
  }

  /** The plain mean of a nonempty sequence of values. */
  function Mean(xs: seq<real>): real
    requires |xs| >= 1
  {
    Sum(xs) / |xs| as real
  }

  lemma {:induction false} ConstantMassSums(s: seq<Sample>, c: real, xs: seq<real>)
    requires |s| == |xs|
    requires forall i :: 0 <= i < |s| ==> s[i] == Sample(xs[i], c)
    ensures TotalMass(s) == |s| as real * c
    ensures WeightedSum(s) == c * Sum(xs)
  {
    if s != [] {
      ConstantMassSums(s[1..], c, xs[1..]);
      assert c * (xs[0] + Sum(xs[1..])) == c * xs[0] + c * Sum(xs[1..]);
    }
  }

  /** An anchor contributes exactly its time weight, spread evenly over its draws. */
  lemma AnchorSamplesSums(xs: seq<real>, wt: real)
    requires |xs| >= 1
    ensures TotalMass(AnchorSamples(xs, wt)) == wt
    ensures WeightedSum(AnchorSamples(xs, wt)) == wt * Mean(xs)
  {
    var n := |xs| as real;
    ConstantMassSums(AnchorSamples(xs, wt), wt / n, xs);
    assert n * (wt / n) == wt;
    assert (wt / n) * Sum(xs) == wt * (Sum(xs) / n);
  }

  lemma NonNegativeQuotient(p: real, q: real)
    requires p >= 0.0 && q > 0.0
    ensures p / q >= 0.0
  {
  }

  /** Two anchors whose time weights are convex make a unit-mass pool whose weighted sum
      mixes their means. */
  lemma TwoAnchorSums(x1: seq<real>, wt1: real, x2: seq<real>, wt2: real)
    requires |x1| >= 1 && |x2| >= 1 && wt1 >= 0.0 && wt2 >= 0.0 && wt1 + wt2 == 1.0
    ensures |AnchorSamples(x1, wt1) + AnchorSamples(x2, wt2)| >= 2
    ensures NonNegativeMasses(AnchorSamples(x1, wt1) + AnchorSamples(x2, wt2))
    ensures TotalMass(AnchorSamples(x1, wt1) + AnchorSamples(x2, wt2)) == 1.0
    ensures WeightedSum(AnchorSamples(x1, wt1) + AnchorSamples(x2, wt2)) == wt1 * Mean(x1) + wt2 * Mean(x2)
  {
    AppendSums(AnchorSamples(x1, wt1), AnchorSamples(x2, wt2));
    AnchorSamplesSums(x1, wt1);
    AnchorSamplesSums(x2, wt2);
    NonNegativeQuotient(wt1, |x1| as real);
    NonNegativeQuotient(wt2, |x2| as real);
  }

  /** The pool has nonnegative masses totalling 1, and its mass-weighted sum is the
      time-weighted mix of the two anchors' mean forecasts. */
  lemma PoolSums(ts: seq<real>, dist: seq<seq<seq<real>>>, v: seq<int>, f: seq<real>, t: real)
    requires CombineInputs(ts, dist, v, f, t)
    ensures var b := TimepointWeights(ts, t);
      var pool := Pool(ts, dist, v, f, t);
      && |pool| >= 2 && NonNegativeMasses(pool) && TotalMass(pool) == 1.0
      && WeightedSum(pool) == b.wt1 * Mean(DrawForecasts(dist[b.it1], v, f))
                              + b.wt2 * Mean(DrawForecasts(dist[b.it2], v, f))
  {
    TimepointWeightsConvex(ts, t);
    TwoAnchorSums(DrawForecasts(dist[TimepointWeights(ts, t).it1], v, f), TimepointWeights(ts, t).wt1,
                  DrawForecasts(dist[TimepointWeights(ts, t).it2], v, f), TimepointWeights(ts, t).wt2);
  }

  /** `s` holds the pool in ascending order of forecast value, as `np.argsort(f_bar_dist)`
      rearranges both arrays (the order among equal values is left open: numpy's default
      sort is not stable). */
  ghost predicate SortsPool(s: seq<Sample>, ts: seq<real>, dist: seq<seq<seq<real>>>, v: seq<int>, f: seq<real>, t: real)
    requires CombineInputs(ts, dist, v, f, t)
  {
    multiset(s) == multiset(Pool(ts, dist, v, f, t)) && SortedBy(s, Value)
  }

  /** A sorted pool keeps the pool's size, nonnegative masses and total mass 1. */
  lemma SortedPoolFacts(s: seq<Sample>, ts: seq<real>, dist: seq<seq<seq<real>>>, v: seq<int>, f: seq<real>, t: real)
    requires CombineInputs(ts, dist, v, f, t) && SortsPool(s, ts, dist, v, f, t)
    ensures SortedUnitSample(s)
  {
    var pool := Pool(ts, dist, v, f, t);
    PoolSums(ts, dist, v, f, t);
    PermutationSums(s, pool);
    assert |s| == |multiset(s)| == |multiset(pool)| == |pool|;
    forall i | 0 <= i < |s| ensures s[i].mass >= 0.0 {
      assert s[i] in multiset(pool);
    }
  }

  /** The result of `combine_forecasts`: the point estimate and the credible interval. */
  datatype Combined = Combined(estimate: real, lower: real, upper: real)

  /** The last steps of `combine_forecasts` on a sorted pool: the mass-weighted mean, and
      the `alpha/2` and `1 - alpha/2` quantiles of the weighted distribution. */
  function Summarise(s: seq<Sample>, alpha: real): Combined
    requires |s| >= 2 && TotalMass(s) != 0.0
  {
    Combined(WeightedMean(s), Quantile(s, alpha / 2.0), Quantile(s, 1.0 - alpha / 2.0))
  }

  /** A sorted weighted sample of total mass 1, as the pool becomes once sorted. */
  ghost predicate SortedUnitSample(s: seq<Sample>)
  {
    |s| >= 2 && NonNegativeMasses(s) && TotalMass(s) == 1.0 && SortedBy(s, Value)
  }

  /** The summary of samples lying in [lo, hi] lies in [lo, hi]. */
  lemma SummaryWithin(s: seq<Sample>, alpha: real, lo: real, hi: real)
    requires SortedUnitSample(s)
    requires forall i :: 0 <= i < |s| ==> lo <= s[i].value <= hi
    ensures var c := Summarise(s, alpha);
      lo <= c.estimate <= hi && lo <= c.lower <= hi && lo <= c.upper <= hi
  {
    WeightedMeanBounds(s, lo, hi);
    QuantileBounds(s, alpha / 2.0);
    QuantileBounds(s, 1.0 - alpha / 2.0);
  }

  lemma SummaryOrdered(s: seq<Sample>, alpha: real)
    requires SortedUnitSample(s) && alpha <= 1.0
    ensures Summarise(s, alpha).lower <= Summarise(s, alpha).upper
  {
    var c := Summarise(s, alpha);
    assert c.lower == Quantile(s, alpha / 2.0) && c.upper == Quantile(s, 1.0 - alpha / 2.0);
    QuantileMonotone(s, alpha / 2.0, 1.0 - alpha / 2.0);
  }

  lemma SummaryNested(s: seq<Sample>, alpha1: real, alpha2: real)
    requires SortedUnitSample(s) && alpha1 <= alpha2
    ensures Summarise(s, alpha1).lower <= Summarise(s, alpha2).lower
    ensures Summarise(s, alpha2).upper <= Summarise(s, alpha1).upper
  {
    LowerNested(s, alpha1, alpha2);
    UpperNested(s, alpha1, alpha2);
  }

  lemma LowerNested(s: seq<Sample>, alpha1: real, alpha2: real)
    requires SortedUnitSample(s) && alpha1 <= alpha2
    ensures Summarise(s, alpha1).lower <= Summarise(s, alpha2).lower
  {
    assert Summarise(s, alpha1).lower == Quantile(s, alpha1 / 2.0);
    assert Summarise(s, alpha2).lower == Quantile(s, alpha2 / 2.0);
    QuantileMonotone(s, alpha1 / 2.0, alpha2 / 2.0);
  }

  lemma UpperNested(s: seq<Sample>, alpha1: real, alpha2: real)
    requires SortedUnitSample(s) && alpha1 <= alpha2
    ensures Summarise(s, alpha2).upper <= Summarise(s, alpha1).upper
  {
    var q1, q2 := 1.0 - alpha1 / 2.0, 1.0 - alpha2 / 2.0;
    assert Summarise(s, alpha1).upper == Quantile(s, q1);
    assert Summarise(s, alpha2).upper == Quantile(s, q2);
    QuantileMonotone(s, q2, q1);
  }

  /** `c` is what `combine_forecasts(f_dict, t, alpha)` returns, for the availability flags
      `v` and quotes `f` that `f_dict` fills in. */
  ghost predicate CombinesTo(ts: seq<real>, dist: seq<seq<seq<real>>>, v: seq<int>, f: seq<real>, t: real,
                             alpha: real, c: Combined)
  {
    CombineInputs(ts, dist, v, f, t) &&
    exists s :: SortsPool(s, ts, dist, v, f, t) && |s| >= 2 && TotalMass(s) != 0.0 && c == Summarise(s, alpha)
  }

  /** Whatever the time and the availability, a result exists. */
  lemma CombineDefined(ts: seq<real>, dist: seq<seq<seq<real>>>, v: seq<int>, f: seq<real>, t: real, alpha: real)
    requires CombineInputs(ts, dist, v, f, t)
    ensures exists c :: CombinesTo(ts, dist, v, f, t, alpha, c)
  {
    var s := SortBy(Pool(ts, dist, v, f, t), Value);
    SortedPoolFacts(s, ts, dist, v, f, t);
    assert CombinesTo(ts, dist, v, f, t, alpha, Summarise(s, alpha));
  }

  /** The estimate and both interval ends lie within the range of the pooled forecasts. */
  lemma SummaryWithinPool(s: seq<Sample>, ts: seq<real>, dist: seq<seq<seq<real>>>, v: seq<int>, f: seq<real>, t: real,
                          alpha: real, lo: real, hi: real)
    requires CombineInputs(ts, dist, v, f, t) && SortsPool(s, ts, dist, v, f, t)
    requires forall i :: 0 <= i < |Pool(ts, dist, v, f, t)| ==> lo <= Pool(ts, dist, v, f, t)[i].value <= hi
    ensures |s| >= 2 && TotalMass(s) == 1.0
    ensures var c := Summarise(s, alpha);
      lo <= c.estimate <= hi && lo <= c.lower <= hi && lo <= c.upper <= hi
  {
    var pool := Pool(ts, dist, v, f, t);
    SortedPoolFacts(s, ts, dist, v, f, t);
    forall i | 0 <= i < |s| ensures lo <= s[i].value <= hi {
      assert s[i] in multiset(pool);
    }
    SummaryWithin(s, alpha, lo, hi);
  }

  /** Every pooled forecast lies within the range of the available quotes. */
  lemma PoolWithinQuotes(ts: seq<real>, dist: seq<seq<seq<real>>>, v: seq<int>, f: seq<real>, t: real,
                         lo: real, hi: real)
    requires CombineInputs(ts, dist, v, f, t)
    requires forall j :: 0 <= j < |v| && v[j] == 1 ==> lo <= f[j] <= hi
    ensures forall i :: 0 <= i < |Pool(ts, dist, v, f, t)| ==> lo <= Pool(ts, dist, v, f, t)[i].value <= hi
  {
    var b := TimepointWeights(ts, t);
    var d1, d2 := dist[b.it1], dist[b.it2];
    var pool := Pool(ts, dist, v, f, t);
    forall i | 0 <= i < |pool| ensures lo <= pool[i].value <= hi {
      if i < |d1| {
        CombinedForecastBounds(d1[i], v, f, lo, hi);
      } else {
        CombinedForecastBounds(d2[i - |d1|], v, f, lo, hi);
      }
    }
  }

  /** When every available quote lies in [lo, hi], so do the estimate and the interval:
      in particular they are probabilities when the quotes are. */
  lemma CombineWithinQuotes(ts: seq<real>, dist: seq<seq<seq<real>>>, v: seq<int>, f: seq<real>, t: real,
                            alpha: real, c: Combined, lo: real, hi: real)
    requires CombinesTo(ts, dist, v, f, t, alpha, c)
    requires forall j :: 0 <= j < |v| && v[j] == 1 ==> lo <= f[j] <= hi
    ensures lo <= c.estimate <= hi && lo <= c.lower <= hi && lo <= c.upper <= hi
  {
    var s :| SortsPool(s, ts, dist, v, f, t) && |s| >= 2 && TotalMass(s) != 0.0 && c == Summarise(s, alpha);
    PoolWithinQuotes(ts, dist, v, f, t, lo, hi);
    SummaryWithinPool(s, ts, dist, v, f, t, alpha, lo, hi);
  }

  /** With a single available forecaster, estimate and interval collapse onto its quote. */
  lemma CombineSingleQuote(ts: seq<real>, dist: seq<seq<seq<real>>>, v: seq<int>, f: seq<real>, t: real,
                           alpha: real, c: Combined, j: nat)
    requires CombinesTo(ts, dist, v, f, t, alpha, c)
    requires j < |v| && v[j] == 1 && forall k :: 0 <= k < |v| && k != j ==> v[k] == 0
    ensures c == Combined(f[j], f[j], f[j])
  {
    CombineWithinQuotes(ts, dist, v, f, t, alpha, c, f[j], f[j]);
  }

  /** For alpha at most 1 the interval is ordered. */
  lemma CombineIntervalOrdered(ts: seq<real>, dist: seq<seq<seq<real>>>, v: seq<int>, f: seq<real>, t: real,
                               alpha: real, c: Combined)
    requires CombinesTo(ts, dist, v, f, t, alpha, c) && alpha <= 1.0
    ensures c.lower <= c.upper
  {
    var s :| SortsPool(s, ts, dist, v, f, t) && |s| >= 2 && TotalMass(s) != 0.0 && c == Summarise(s, alpha);
    SortedPoolFacts(s, ts, dist, v, f, t);
    SummaryOrdered(s, alpha);
  }

  /** On the same sorted pool, a larger alpha (a lower credibility level) never gives a
      wider interval. */
  lemma SummaryIntervalNested(s: seq<Sample>, ts: seq<real>, dist: seq<seq<seq<real>>>, v: seq<int>, f: seq<real>, t: real,
                              alpha1: real, alpha2: real)
    requires CombineInputs(ts, dist, v, f, t) && SortsPool(s, ts, dist, v, f, t) && alpha1 <= alpha2
    ensures |s| >= 2 && TotalMass(s) == 1.0
    ensures Summarise(s, alpha1).lower <= Summarise(s, alpha2).lower
    ensures Summarise(s, alpha2).upper <= Summarise(s, alpha1).upper
  {
    SortedPoolFacts(s, ts, dist, v, f, t);
    SummaryNested(s, alpha1, alpha2);
  }

  /** The estimate is the time-weighted mix of the two anchors' posterior-mean forecasts. */
  lemma CombineEstimate(ts: seq<real>, dist: seq<seq<seq<real>>>, v: seq<int>, f: seq<real>, t: real,
                        alpha: real, c: Combined)
    requires CombinesTo(ts, dist, v, f, t, alpha, c)
    ensures var b := TimepointWeights(ts, t);
      c.estimate == b.wt1 * Mean(DrawForecasts(dist[b.it1], v, f)) + b.wt2 * Mean(DrawForecasts(dist[b.it2], v, f))
  {
    var s :| SortsPool(s, ts, dist, v, f, t) && |s| >= 2 && TotalMass(s) != 0.0 && c == Summarise(s, alpha);
    PoolSums(ts, dist, v, f, t);
    PermutationSums(s, Pool(ts, dist, v, f, t));
  }

  /** The time-weighted mix of the bracketing anchors' means, for a time strictly between
      anchors `k` and `k + 1`. */
  lemma MixBetweenAnchors(ts: seq<real>, dist: seq<seq<seq<real>>>, v: seq<int>, f: seq<real>, t: real,
                          e: real, k: nat)
    requires CombineInputs(ts, dist, v, f, t) && k + 1 < |ts| && ts[k] < t < ts[k + 1]
    requires var b := TimepointWeights(ts, t);
      e == b.wt1 * Mean(DrawForecasts(dist[b.it1], v, f)) + b.wt2 * Mean(DrawForecasts(dist[b.it2], v, f))
    ensures Quoted(dist[k], v) && Quoted(dist[k + 1], v)
    ensures var r := (t - ts[k]) / (ts[k + 1] - ts[k]);
      e == (1.0 - r) * Mean(DrawForecasts(dist[k], v, f)) + r * Mean(DrawForecasts(dist[k + 1], v, f))
  {
    TimepointWeightsBetween(ts, t, k);
  }

  /** At an anchor the estimate is that anchor's posterior-mean forecast. */
  lemma CombineOnAnchor(ts: seq<real>, dist: seq<seq<seq<real>>>, v: seq<int>, f: seq<real>, t: real,
                        alpha: real, c: Combined, k: nat)
    requires CombinesTo(ts, dist, v, f, t, alpha, c) && k < |ts| && ts[k] == t
    ensures Quoted(dist[k], v)
    ensures c.estimate == Mean(DrawForecasts(dist[k], v, f))
  {
    TimepointWeightsOnAnchor(ts, t, k);
    CombineEstimate(ts, dist, v, f, t, alpha, c);
  }

  /** Between two anchors the estimate interpolates linearly between the anchors'
      posterior-mean forecasts. */
  lemma CombineBetweenAnchors(ts: seq<real>, dist: seq<seq<seq<real>>>, v: seq<int>, f: seq<real>, t: real,
                              alpha: real, c: Combined, k: nat)
    requires CombinesTo(ts, dist, v, f, t, alpha, c) && k + 1 < |ts| && ts[k] < t < ts[k + 1]
    ensures Quoted(dist[k], v) && Quoted(dist[k + 1], v)
    ensures var r := (t - ts[k]) / (ts[k + 1] - ts[k]);
      c.estimate == (1.0 - r) * Mean(DrawForecasts(dist[k], v, f)) + r * Mean(DrawForecasts(dist[k + 1], v, f))
  {
    CombineEstimate(ts, dist, v, f, t, alpha, c);
    MixBetweenAnchors(ts, dist, v, f, t, c.estimate, k);
  }

  /** The forecasters quoting in `quotes` are flagged 1, at the first position of their
      name in `models` (`models.index(name)`); names outside `models` are ignored. */
  function Availability(models: seq<string>, quotes: map<string, real>): (v: seq<int>)
    ensures |v| == |models| && IsAvailability(v)
    ensures forall j :: 0 <= j < |models| ==>
      (v[j] == 1 <==> models[j] in quotes && IndexOf(models, models[j]) == j)
  {
    seq(|models|, j requires 0 <= j < |models| =>
      if models[j] in quotes && IndexOf(models, models[j]) == j then 1 else 0)
  }

  /** The quote vector `f`: a forecaster's quote where it is flagged, 0 elsewhere. */
  function QuoteVector(models: seq<string>, quotes: map<string, real>): (f: seq<real>)
    ensures |f| == |models|
    ensures forall j :: 0 <= j < |models| ==>
      f[j] == if Availability(models, quotes)[j] == 1 then quotes[models[j]] else 0.0
  {
    seq(|models|, j requires 0 <= j < |models| =>
      if models[j] in quotes && IndexOf(models, models[j]) == j then quotes[models[j]] else 0.0)
  }

  /** A quote from a sportsbook the weights do not know changes neither vector. */
  lemma UnknownQuoteIgnored(models: seq<string>, quotes: map<string, real>, name: string, x: real)
    requires name !in models
    ensures Availability(models, quotes[name := x]) == Availability(models, quotes)
    ensures QuoteVector(models, quotes[name := x]) == QuoteVector(models, quotes)
  {
  }

  /** One row of the weight table: the lead time it belongs to and one posterior draw of
      the weight vector, one entry per column. */
  datatype WeightRow = WeightRow(t: real, weights: seq<real>)

  function Times(rows: seq<WeightRow>): (ts: seq<real>)
    ensures |ts| == |rows| && forall i :: 0 <= i < |rows| ==> ts[i] == rows[i].t
  {
    seq(|rows|, i requires 0 <= i < |rows| => rows[i].t)
  }

  /** `weight_df.loc[t]`: the draws recorded at lead time `t`, in row order. */
  function DrawsAt(rows: seq<WeightRow>, t: real): (d: seq<seq<real>>)
    ensures forall w :: w in d <==> WeightRow(t, w) in rows
  {
    if rows == [] then []
    else (if rows[0].t == t then [rows[0].weights] else []) + DrawsAt(rows[1..], t)
  }

  /** The table `__init__` accepts: at least two distinct lead times, and draws of the
      right length with nonnegative weights. */
  ghost predicate WeightTable(rows: seq<WeightRow>, columns: seq<string>)
  {
    |SortedUnique(Times(rows))| >= 2 &&
    forall r :: r in rows ==> |r.weights| == |columns| && NonNegative(r.weights)
  }

  /** Every lead time of the table has at least one draw. */
  lemma DrawsAtAnchor(rows: seq<WeightRow>, columns: seq<string>, t: real)
    requires WeightTable(rows, columns) && t in Times(rows)
    ensures DrawSample(DrawsAt(rows, t), |columns|)
  {
    var i :| 0 <= i < |rows| && Times(rows)[i] == t;
    assert rows[i] == WeightRow(t, rows[i].weights);
    assert rows[i].weights in DrawsAt(rows, t);
    var d := DrawsAt(rows, t);
    forall k | 0 <= k < |d| ensures |d[k]| == |columns| && NonNegative(d[k]) {
      assert d[k] in d;
      assert WeightRow(t, d[k]) in rows;
    }
  }

  /** The loop of `__init__` over the anchors: the draws recorded at each lead time of
      `ts`, in order. */
  method PosteriorDraws(rows: seq<WeightRow>, columns: seq<string>, ts: seq<real>) returns (dist: seq<seq<seq<real>>>)
    requires WeightTable(rows, columns) && forall t :: t in ts ==> t in Times(rows)
    ensures |dist| == |ts|
    ensures forall k :: 0 <= k < |ts| ==> dist[k] == DrawsAt(rows, ts[k]) && DrawSample(dist[k], |columns|)
  {
    dist := [];
    for k := 0 to |ts|
      invariant |dist| == k
      invariant forall j :: 0 <= j < k ==> dist[j] == DrawsAt(rows, ts[j]) && DrawSample(dist[j], |columns|)
    {
      DrawsAtAnchor(rows, columns, ts[k]);
      dist := dist + [DrawsAt(rows, ts[k])];
    }
  }

  /** The fitted combination: the anchor lead times, the forecaster (sportsbook) names,
      and one posterior sample of weight vectors per anchor. */
  class ModelCombination {
    var timepoints: seq<real>
    var models: seq<string>
    var posteriorDist: seq<seq<seq<real>>>

    ghost predicate Valid()
      reads this
    {
      WellFormed(timepoints, posteriorDist, |models|)
    }

    /** `__init__(weight_df)`: the sorted distinct lead times, the columns, and per lead
        time the draws recorded at it. */
    constructor(rows: seq<WeightRow>, columns: seq<string>)
      requires WeightTable(rows, columns)
      ensures Valid()
      ensures timepoints == SortedUnique(Times(rows)) && models == columns
      ensures |posteriorDist| == |timepoints|
      ensures forall k :: 0 <= k < |timepoints| ==> posteriorDist[k] == DrawsAt(rows, timepoints[k])
    {
      var ts := SortedUnique(Times(rows));
      var dist := PosteriorDraws(rows, columns, ts);
      timepoints := ts;
      models := columns;
      posteriorDist := dist;
    }

    /** `combine_forecasts(f_dict, t, alpha)`: the point estimate and the credible
        interval `(lower, upper)` for the quotes in `quotes`. */
    method CombineForecasts(quotes: map<string, real>, t: real, alpha: real) returns (fBar: real, lower: real, upper: real)
      requires Valid()
      requires Covered(timepoints, posteriorDist, Availability(models, quotes), t)
      ensures CombinesTo(timepoints, posteriorDist, Availability(models, quotes), QuoteVector(models, quotes), t,
                         alpha, Combined(fBar, lower, upper))
    {
      var n := |models|;
      var f := new real[n](_ => 0.0);
      var v := new int[n](_ => 0);
      var pending := quotes.Keys;
      while pending != {}
        invariant pending <= quotes.Keys
        invariant forall j :: 0 <= j < n ==>
          var seen := models[j] in quotes && models[j] !in pending && IndexOf(models, models[j]) == j;
          v[j] == (if seen then 1 else 0) && f[j] == (if seen then quotes[models[j]] else 0.0)
        decreases pending
      {
        var name :| name in pending;
        if name in models {
          var j := IndexOf(models, name);
          f[j] := quotes[name];
          v[j] := 1;
        }
        pending := pending - {name};
      }
      var av, fv := v[..], f[..];
      assert av == Availability(models, quotes);
      assert fv == QuoteVector(models, quotes);
      var s := SortBy(Pool(timepoints, posteriorDist, av, fv, t), Value);
      SortedPoolFacts(s, timepoints, posteriorDist, av, fv, t);
      var c := Summarise(s, alpha);
      fBar, lower, upper := c.estimate, c.lower, c.upper;
    }

    /** `value_of_weights(t_vals, alpha)`: for every model, the combination of the quotes
        that give that model 1 and every other model 0, at every time of `tVals`. Row `j`
        of each result is the column of `models[j]`. */
    method ValueOfWeights(tVals: seq<real>, alpha: real) returns (wBar: seq<seq<real>>, wLower: seq<seq<real>>, wUpper: seq<seq<real>>)
      requires Valid()
      requires forall j, i :: 0 <= j < |models| && 0 <= i < |tVals| ==>
        Covered(timepoints, posteriorDist, Availability(models, IndicatorQuotes(models, models[j])), tVals[i])
      ensures Shaped(wBar, wLower, wUpper, |models|, |tVals|)
      ensures WeightValues(timepoints, posteriorDist, models, tVals, alpha, wBar, wLower, wUpper)
    {
      wBar, wLower, wUpper := [], [], [];
      for j := 0 to |models|
        invariant Shaped(wBar, wLower, wUpper, j, |tVals|)
        invariant WeightValues(timepoints, posteriorDist, models, tVals, alpha, wBar, wLower, wUpper)
      {
        var quotes := IndicatorQuotes(models, models[j]);
        ghost var av, fv := Availability(models, quotes), QuoteVector(models, quotes);
        var barVals, lowerVals, upperVals := [], [], [];
        for i := 0 to |tVals|
          invariant |barVals| == |lowerVals| == |upperVals| == i
          invariant CombinesEach(timepoints, posteriorDist, av, fv, tVals[..i], alpha, Zip3(barVals, lowerVals, upperVals))
        {
          var e, lo, hi := CombineForecasts(quotes, tVals[i], alpha);
          ColumnExtend(timepoints, posteriorDist, av, fv, tVals, i, alpha, barVals, lowerVals, upperVals, e, lo, hi);
          barVals, lowerVals, upperVals := barVals + [e], lowerVals + [lo], upperVals + [hi];
        }
        CombinesEachWhole(timepoints, posteriorDist, av, fv, tVals, alpha, Zip3(barVals, lowerVals, upperVals));
        WeightValuesExtend(timepoints, posteriorDist, models, tVals, alpha, wBar, wLower, wUpper,
                           barVals, lowerVals, upperVals);
        ShapedExtend(wBar, wLower, wUpper, j, |tVals|, barVals, lowerVals, upperVals);
        wBar, wLower, wUpper := wBar + [barVals], wLower + [lowerVals], wUpper + [upperVals];
      }
    }
  }

  /** Three tables of `m` rows (models) by `n` columns (times). */
  ghost predicate Shaped(wBar: seq<seq<real>>, wLower: seq<seq<real>>, wUpper: seq<seq<real>>, m: nat, n: nat)
  {
    |wBar| == |wLower| == |wUpper| == m && Columns(wBar, n) && Columns(wLower, n) && Columns(wUpper, n)
  }

  lemma ShapedExtend(wBar: seq<seq<real>>, wLower: seq<seq<real>>, wUpper: seq<seq<real>>, m: nat, n: nat,
                     bar: seq<real>, lower: seq<real>, upper: seq<real>)
    requires Shaped(wBar, wLower, wUpper, m, n) && |bar| == |lower| == |upper| == n
    ensures Shaped(wBar + [bar], wLower + [lower], wUpper + [upper], m + 1, n)
  {
  }

  /** Column `j` holds, at every time of `tVals`, what `combine_forecasts` returns for the
      indicator quotes of `models[j]`. */
  ghost predicate ColumnValues(ts: seq<real>, dist: seq<seq<seq<real>>>, models: seq<string>, j: nat, tVals: seq<real>,
                               alpha: real, bar: seq<real>, lower: seq<real>, upper: seq<real>)
    requires j < |models|
  {
    && |bar| == |lower| == |upper| == |tVals|
    && var quotes := IndicatorQuotes(models, models[j]);
       CombinesEach(ts, dist, Availability(models, quotes), QuoteVector(models, quotes), tVals, alpha, Zip3(bar, lower, upper))
  }

  /** Row `j` of the three tables is the column of `models[j]`. */
  ghost predicate WeightValues(ts: seq<real>, dist: seq<seq<seq<real>>>, models: seq<string>, tVals: seq<real>,
                               alpha: real, wBar: seq<seq<real>>, wLower: seq<seq<real>>, wUpper: seq<seq<real>>)
  {
    |wBar| == |wLower| == |wUpper| <= |models| &&
    forall j :: 0 <= j < |wBar| ==> ColumnValues(ts, dist, models, j, tVals, alpha, wBar[j], wLower[j], wUpper[j])
  }

  lemma WeightValuesExtend(ts: seq<real>, dist: seq<seq<seq<real>>>, models: seq<string>, tVals: seq<real>,
                           alpha: real, wBar: seq<seq<real>>, wLower: seq<seq<real>>, wUpper: seq<seq<real>>,
                           bar: seq<real>, lower: seq<real>, upper: seq<real>)
    requires WeightValues(ts, dist, models, tVals, alpha, wBar, wLower, wUpper) && |wBar| < |models|
    requires ColumnValues(ts, dist, models, |wBar|, tVals, alpha, bar, lower, upper)
    ensures WeightValues(ts, dist, models, tVals, alpha, wBar + [bar], wLower + [lower], wUpper + [upper])
  {
    forall j | 0 <= j < |wBar| + 1
      ensures ColumnValues(ts, dist, models, j, tVals, alpha, (wBar + [bar])[j], (wLower + [lower])[j], (wUpper + [upper])[j])
    {
      if j < |wBar| {
        assert (wBar + [bar])[j] == wBar[j] && (wLower + [lower])[j] == wLower[j] && (wUpper + [upper])[j] == wUpper[j];
      }
    }
  }

  /** `cs[i]` is what `combine_forecasts` returns at `times[i]`, for every `i` (stated
      from the last entry back). */
  ghost predicate CombinesEach(ts: seq<real>, dist: seq<seq<seq<real>>>, v: seq<int>, f: seq<real>, times: seq<real>,
                               alpha: real, cs: seq<Combined>)
  {
    |cs| == |times| &&
    (times != [] ==>
      CombinesEach(ts, dist, v, f, times[..|times| - 1], alpha, cs[..|cs| - 1]) &&
      CombinesTo(ts, dist, v, f, times[|times| - 1], alpha, cs[|cs| - 1]))
  }

  lemma CombinesEachExtend(ts: seq<real>, dist: seq<seq<seq<real>>>, v: seq<int>, f: seq<real>, times: seq<real>,
                           i: nat, alpha: real, cs: seq<Combined>, c: Combined)
    requires i < |times| && CombinesEach(ts, dist, v, f, times[..i], alpha, cs)
    requires CombinesTo(ts, dist, v, f, times[i], alpha, c)
    ensures CombinesEach(ts, dist, v, f, times[..i + 1], alpha, cs + [c])
  {
    var prefix, results := times[..i + 1], cs + [c];
    assert prefix[..|prefix| - 1] == times[..i] && prefix[|prefix| - 1] == times[i];
    assert results[..|results| - 1] == cs && results[|results| - 1] == c;
  }

  lemma ColumnExtend(ts: seq<real>, dist: seq<seq<seq<real>>>, v: seq<int>, f: seq<real>, times: seq<real>,
                     i: nat, alpha: real, bar: seq<real>, lower: seq<real>, upper: seq<real>, e: real, lo: real, hi: real)
    requires i < |times| && |bar| == |lower| == |upper|
    requires CombinesEach(ts, dist, v, f, times[..i], alpha, Zip3(bar, lower, upper))
    requires CombinesTo(ts, dist, v, f, times[i], alpha, Combined(e, lo, hi))
    ensures CombinesEach(ts, dist, v, f, times[..i + 1], alpha, Zip3(bar + [e], lower + [lo], upper + [hi]))
  {
    Zip3Append(bar, lower, upper, e, lo, hi);
    CombinesEachExtend(ts, dist, v, f, times, i, alpha, Zip3(bar, lower, upper), Combined(e, lo, hi));
  }

  lemma Zip3Append(bar: seq<real>, lower: seq<real>, upper: seq<real>, e: real, lo: real, hi: real)
    requires |bar| == |lower| == |upper|
    ensures Zip3(bar + [e], lower + [lo], upper + [hi]) == Zip3(bar, lower, upper) + [Combined(e, lo, hi)]
  {
  }

  lemma CombinesEachWhole(ts: seq<real>, dist: seq<seq<seq<real>>>, v: seq<int>, f: seq<real>, times: seq<real>,
                          alpha: real, cs: seq<Combined>)
    requires CombinesEach(ts, dist, v, f, times[..|times|], alpha, cs)
    ensures CombinesEach(ts, dist, v, f, times, alpha, cs)
  {
    assert times[..|times|] == times;
  }

  /** Each entry is what `combine_forecasts` returns at its time. */
  lemma {:induction false} CombinesEachAt(ts: seq<real>, dist: seq<seq<seq<real>>>, v: seq<int>, f: seq<real>,
                                          times: seq<real>, alpha: real, cs: seq<Combined>, i: nat)
    requires CombinesEach(ts, dist, v, f, times, alpha, cs) && i < |times|
    ensures CombinesTo(ts, dist, v, f, times[i], alpha, cs[i])
  {
    if i < |times| - 1 {
      CombinesEachAt(ts, dist, v, f, times[..|times| - 1], alpha, cs[..|cs| - 1], i);
    }
  }

  /** The point estimates, lower and upper bounds of one column, read back as results. */
  function Zip3(bar: seq<real>, lower: seq<real>, upper: seq<real>): (cs: seq<Combined>)
    requires |bar| == |lower| == |upper|
    ensures |cs| == |bar| && forall i :: 0 <= i < |bar| ==> cs[i] == Combined(bar[i], lower[i], upper[i])
  {
    seq(|bar|, i requires 0 <= i < |bar| => Combined(bar[i], lower[i], upper[i]))
  }

  /** `{x: 0 for x in models}` with `models[j]` then set to 1. */
  function IndicatorQuotes(models: seq<string>, model: string): map<string, real>
  {
    map x | x in models :: if x == model then 1.0 else 0.0
  }

  /** No name occurs twice, as in the columns of a dataframe. */
  ghost predicate DistinctNames(models: seq<string>)
  {
    forall a, b :: 0 <= a < b < |models| ==> models[a] != models[b]
  }

  /** The quotes `value_of_weights` builds for `models[j]` make every model available and
      quote 1 for `models[j]` alone. */
  lemma IndicatorInputs(models: seq<string>, j: nat)
    requires DistinctNames(models) && j < |models|
    ensures Availability(models, IndicatorQuotes(models, models[j])) == Ones(|models|)
    ensures QuoteVector(models, IndicatorQuotes(models, models[j])) == Indicator(|models|, j)
  {
    var quotes := IndicatorQuotes(models, models[j]);
    forall k | 0 <= k < |models|
      ensures models[k] in quotes && IndexOf(models, models[k]) == k
      ensures quotes[models[k]] == if k == j then 1.0 else 0.0
    {
      var i := IndexOf(models, models[k]);
      assert i <= k;
    }
  }

  /** Every quote `value_of_weights` passes is 0 or 1. */
  lemma IndicatorQuotesUnit(models: seq<string>, model: string)
    ensures forall k :: 0 <= k < |models| ==> 0.0 <= QuoteVector(models, IndicatorQuotes(models, model))[k] <= 1.0
  {
  }

  /** Per anchor draw, the share of the weight each model carries. */
  function ShareColumns(draws: seq<seq<real>>, m: nat): (cols: seq<seq<real>>)
    requires Quoted(draws, Ones(m))
    ensures |cols| == m && Columns(cols, |draws|)
    ensures forall j :: 0 <= j < m ==> cols[j] == DrawForecasts(draws, Ones(m), Indicator(m, j))
  {
    seq(m, j requires 0 <= j < m => DrawForecasts(draws, Ones(m), Indicator(m, j)))
  }

  /** The posterior-mean share of every model at one anchor. */
  function MeanShares(draws: seq<seq<real>>, m: nat): (r: seq<real>)
    requires |draws| >= 1 && Quoted(draws, Ones(m))
    ensures |r| == m && forall j :: 0 <= j < m ==> r[j] == Mean(DrawForecasts(draws, Ones(m), Indicator(m, j)))
  {
    seq(m, j requires 0 <= j < m => Mean(DrawForecasts(draws, Ones(m), Indicator(m, j))))
  }

  lemma DivideAsScale(x: real, n: real)
    requires n != 0.0
    ensures x / n == (1.0 / n) * x
  {
  }

  /** Under one draw the shares of all models add up to 1. */
  lemma DrawSharesSumToOne(draws: seq<seq<real>>, m: nat, i: nat)
    requires |draws| >= 1 && Quoted(draws, Ones(m)) && i < |draws|
    ensures Sum(Slice(ShareColumns(draws, m), |draws|, i)) == 1.0
  {
    var w := draws[i];
    var cols := ShareColumns(draws, m);
    AvailableWeightAll(w);
    forall j | 0 <= j < m ensures Slice(cols, |draws|, i)[j] == Scale(1.0 / Sum(w), w)[j] {
      IndicatorForecast(w, j);
      DivideAsScale(w[j], Sum(w));
    }
    assert Slice(cols, |draws|, i) == Scale(1.0 / Sum(w), w);
    SharesSumToOne(w);
  }

  /** At every anchor the posterior-mean shares of the models add up to 1. */
  lemma MeanSharesSumToOne(draws: seq<seq<real>>, m: nat)
    requires |draws| >= 1 && Quoted(draws, Ones(m))
    ensures Sum(MeanShares(draws, m)) == 1.0
  {
    var n := |draws|;
    var cols := ShareColumns(draws, m);
    SumQuotients(MeanShares(draws, m), Totals(cols), n as real);
    forall i | 0 <= i < n ensures Across(cols, n)[i] == 1.0 {
      DrawSharesSumToOne(draws, m, i);
    }
    assert Across(cols, n) == Constant(n, 1.0);
    SumConstant(n, 1.0);
    SumTotals(cols, n);
    SelfQuotient(n as real);
  }

  /** Entry `(j, i)` of the three tables is what `combine_forecasts` returns at `tVals[i]`
      for the indicator quotes of `models[j]`. */
  lemma WeightValueCombines(ts: seq<real>, dist: seq<seq<seq<real>>>, models: seq<string>, tVals: seq<real>,
                            alpha: real, wBar: seq<seq<real>>, wLower: seq<seq<real>>, wUpper: seq<seq<real>>,
                            i: nat, j: nat)
    requires WeightValues(ts, dist, models, tVals, alpha, wBar, wLower, wUpper)
    requires Shaped(wBar, wLower, wUpper, |wBar|, |tVals|)
    requires j < |wBar| && i < |tVals|
    ensures var quotes := IndicatorQuotes(models, models[j]);
      CombinesTo(ts, dist, Availability(models, quotes), QuoteVector(models, quotes), tVals[i], alpha,
                 Combined(wBar[j][i], wLower[j][i], wUpper[j][i]))
  {
    var quotes := IndicatorQuotes(models, models[j]);
    CombinesEachAt(ts, dist, Availability(models, quotes), QuoteVector(models, quotes), tVals, alpha,
                   Zip3(wBar[j], wLower[j], wUpper[j]), i);
  }

  /** `e` is the time-weighted mix, at time `t`, of the bracketing anchors' posterior-mean
      shares of model `j` out of `m`. */
  ghost predicate SharesMix(ts: seq<real>, dist: seq<seq<seq<real>>>, m: nat, j: nat, t: real, e: real)
  {
    && WellFormed(ts, dist, m) && j < m
    && var b := TimepointWeights(ts, t);
       && Quoted(dist[b.it1], Ones(m)) && Quoted(dist[b.it2], Ones(m))
       && e == b.wt1 * MeanShares(dist[b.it1], m)[j] + b.wt2 * MeanShares(dist[b.it2], m)[j]
  }

  /** With every model available and the indicator quotes of model `j`, the estimate is
      the time-weighted mix of the bracketing anchors' posterior-mean shares of `j`. */
  lemma IndicatorEstimate(ts: seq<real>, dist: seq<seq<seq<real>>>, m: nat, j: nat, t: real, alpha: real, c: Combined)
    requires j < m && CombinesTo(ts, dist, Ones(m), Indicator(m, j), t, alpha, c)
    ensures SharesMix(ts, dist, m, j, t, c.estimate)
  {
    CombineEstimate(ts, dist, Ones(m), Indicator(m, j), t, alpha, c);
    IndicatorMix(ts, dist, m, j, t, c.estimate);
  }

  lemma IndicatorMix(ts: seq<real>, dist: seq<seq<seq<real>>>, m: nat, j: nat, t: real, e: real)
    requires j < m && CombineInputs(ts, dist, Ones(m), Indicator(m, j), t)
    requires var b := TimepointWeights(ts, t);
      e == b.wt1 * Mean(DrawForecasts(dist[b.it1], Ones(m), Indicator(m, j)))
           + b.wt2 * Mean(DrawForecasts(dist[b.it2], Ones(m), Indicator(m, j)))
    ensures var b := TimepointWeights(ts, t);
      && Quoted(dist[b.it1], Ones(m)) && Quoted(dist[b.it2], Ones(m))
      && e == b.wt1 * MeanShares(dist[b.it1], m)[j] + b.wt2 * MeanShares(dist[b.it2], m)[j]
  {
  }

  /** Entry `(j, i)` of the mean table is the time-weighted mix of the two bracketing
      anchors' posterior-mean shares of `models[j]`. */
  lemma WeightValueEntry(ts: seq<real>, dist: seq<seq<seq<real>>>, models: seq<string>, tVals: seq<real>,
                         alpha: real, wBar: seq<seq<real>>, wLower: seq<seq<real>>, wUpper: seq<seq<real>>,
                         i: nat, j: nat)
    requires WeightValues(ts, dist, models, tVals, alpha, wBar, wLower, wUpper)
    requires Shaped(wBar, wLower, wUpper, |wBar|, |tVals|)
    requires DistinctNames(models) && j < |wBar| && i < |tVals|
    ensures SharesMix(ts, dist, |models|, j, tVals[i], wBar[j][i])
  {
    var m := |models|;
    var c := Combined(wBar[j][i], wLower[j][i], wUpper[j][i]);
    WeightValueCombines(ts, dist, models, tVals, alpha, wBar, wLower, wUpper, i, j);
    IndicatorInputs(models, j);
    IndicatorEstimate(ts, dist, m, j, tVals[i], alpha, c);
  }

  /** A convex mix of two sequences that each add up to 1 adds up to 1. */
  lemma ConvexMixSum(row: seq<real>, w1: real, m1: seq<real>, w2: real, m2: seq<real>)
    requires |row| == |m1| == |m2| && Sum(m1) == 1.0 && Sum(m2) == 1.0 && w1 + w2 == 1.0
    requires forall j :: 0 <= j < |row| ==> row[j] == w1 * m1[j] + w2 * m2[j]
    ensures Sum(row) == 1.0
  {
    assert row == Plus(Scale(w1, m1), Scale(w2, m2));
    SumPlus(Scale(w1, m1), Scale(w2, m2));
    SumScale(w1, m1);
    SumScale(w2, m2);
  }

  lemma MixedRow(ts: seq<real>, dist: seq<seq<seq<real>>>, m: nat, t: real, row: seq<real>)
    requires |row| == m >= 1
    requires forall j :: 0 <= j < m ==> SharesMix(ts, dist, m, j, t, row[j])
    ensures Anchors(ts) && |dist| == |ts|
    ensures Quoted(dist[TimepointWeights(ts, t).it1], Ones(m)) && Quoted(dist[TimepointWeights(ts, t).it2], Ones(m))
    ensures |dist[TimepointWeights(ts, t).it1]| >= 1 && |dist[TimepointWeights(ts, t).it2]| >= 1
    ensures forall j :: 0 <= j < |row| ==> row[j] == TimepointWeights(ts, t).wt1 * MeanShares(dist[TimepointWeights(ts, t).it1], m)[j] +
                                               TimepointWeights(ts, t).wt2 * MeanShares(dist[TimepointWeights(ts, t).it2], m)[j]
  {
    assert SharesMix(ts, dist, m, 0, t, row[0]);
  }

  /** Values that mix the shares of every model at one time add up to 1. */
  lemma MixedSharesSumToOne(ts: seq<real>, dist: seq<seq<seq<real>>>, m: nat, t: real, row: seq<real>)
    requires |row| == m >= 1
    requires forall j :: 0 <= j < m ==> SharesMix(ts, dist, m, j, t, row[j])
    ensures Sum(row) == 1.0
  {
    MixedRow(ts, dist, m, t, row);
    TimepointWeightsConvex(ts, t);
    MixSum(row, m, TimepointWeights(ts, t).wt1, dist[TimepointWeights(ts, t).it1],
           TimepointWeights(ts, t).wt2, dist[TimepointWeights(ts, t).it2]);
  }

  /** A convex mix of the posterior-mean shares of two samples adds up to 1. */
  lemma MixSum(row: seq<real>, m: nat, w1: real, d1: seq<seq<real>>, w2: real, d2: seq<seq<real>>)
    requires |row| == m && w1 + w2 == 1.0
    requires |d1| >= 1 && Quoted(d1, Ones(m)) && |d2| >= 1 && Quoted(d2, Ones(m))
    requires forall j :: 0 <= j < |row| ==> row[j] == w1 * MeanShares(d1, m)[j] + w2 * MeanShares(d2, m)[j]
    ensures Sum(row) == 1.0
  {
    MeanSharesSumToOne(d1, m);
    MeanSharesSumToOne(d2, m);
    ConvexMixSum(row, w1, MeanShares(d1, m), w2, MeanShares(d2, m));
  }

  /** At every time, the posterior-mean weights of the models add up to 1. */
  lemma ValueOfWeightsSumToOne(ts: seq<real>, dist: seq<seq<seq<real>>>, models: seq<string>, tVals: seq<real>,
                               alpha: real, wBar: seq<seq<real>>, wLower: seq<seq<real>>, wUpper: seq<seq<real>>,
                               i: nat)
    requires WeightValues(ts, dist, models, tVals, alpha, wBar, wLower, wUpper)
    requires Shaped(wBar, wLower, wUpper, |models|, |tVals|)
    requires DistinctNames(models) && |models| >= 1 && i < |tVals|
    ensures Sum(Slice(wBar, |tVals|, i)) == 1.0
  {
    var row := Slice(wBar, |tVals|, i);
    forall j | 0 <= j < |models| ensures SharesMix(ts, dist, |models|, j, tVals[i], row[j]) {
      WeightValueEntry(ts, dist, models, tVals, alpha, wBar, wLower, wUpper, i, j);
    }
    MixedSharesSumToOne(ts, dist, |models|, tVals[i], row);
  }

  /** Every entry of the three tables is a weight between 0 and 1. */
  lemma ValueOfWeightsWithinUnit(ts: seq<real>, dist: seq<seq<seq<real>>>, models: seq<string>, tVals: seq<real>,
                                 alpha: real, wBar: seq<seq<real>>, wLower: seq<seq<real>>, wUpper: seq<seq<real>>,
                                 i: nat, j: nat)
    requires WeightValues(ts, dist, models, tVals, alpha, wBar, wLower, wUpper)
    requires Shaped(wBar, wLower, wUpper, |wBar|, |tVals|)
    requires j < |wBar| && i < |tVals|
    ensures 0.0 <= wBar[j][i] <= 1.0 && 0.0 <= wLower[j][i] <= 1.0 && 0.0 <= wUpper[j][i] <= 1.0
  {
    WeightValueCombines(ts, dist, models, tVals, alpha, wBar, wLower, wUpper, i, j);
    IndicatorWithinUnit(ts, dist, models, models[j], tVals[i], alpha, Combined(wBar[j][i], wLower[j][i], wUpper[j][i]));
  }

  /** Combining indicator quotes stays between 0 and 1. */
  lemma IndicatorWithinUnit(ts: seq<real>, dist: seq<seq<seq<real>>>, models: seq<string>, model: string, t: real,
                            alpha: real, c: Combined)
    requires CombinesTo(ts, dist, Availability(models, IndicatorQuotes(models, model)),
                        QuoteVector(models, IndicatorQuotes(models, model)), t, alpha, c)
    ensures 0.0 <= c.estimate <= 1.0 && 0.0 <= c.lower <= 1.0 && 0.0 <= c.upper <= 1.0
  {
    IndicatorQuotesUnit(models, model);
    CombineWithinQuotes(ts, dist, Availability(models, IndicatorQuotes(models, model)),
                        QuoteVector(models, IndicatorQuotes(models, model)), t, alpha, c, 0.0, 1.0);
  }
}
