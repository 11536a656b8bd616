/** The worked scenario of the forecast combination. Two anchors sit 6 and 2 hours before
    the game, each with five identical posterior draws over two sportsbooks A and B: (0.4,
    0.6) at the early anchor and (0.7, 0.3) at the late one. Both books quote, A at 0.6
    and B at 0.8, and the query is 4 hours before the game with alpha = 0.05. */
module CombinationExample {
  import opened Seqs
  import opened Interp1d
  import opened Forecast
  import opened WeightedSamples
  import opened Combination

  const ExampleAnchors: seq<real> := [-6.0, -2.0]
  const EarlyDraw: seq<real> := [0.4, 0.6]
  const LateDraw: seq<real> := [0.7, 0.3]
  const ExampleDraws: seq<seq<seq<real>>> := [seq(5, _ => EarlyDraw), seq(5, _ => LateDraw)]
  const ExampleFlags: seq<int> := [1, 1]
  const ExampleQuotes: seq<real> := [0.6, 0.8]

  /** `n` copies of one weighted sample. */
  function Copies(n: nat, x: Sample): (s: seq<Sample>)
    ensures |s| == n && forall i :: 0 <= i < n ==> s[i] == x
  {
    seq(n, _ => x)
  }

  /** The pool in ascending order of forecast: the five late-anchor forecasts first. */
  const SortedExamplePool: seq<Sample> := Copies(5, Sample(0.66, 0.1)) + Copies(5, Sample(0.72, 0.1))

  /** Halfway between the anchors, each anchor gets half the time weight. */
  lemma ExampleWeights()
    ensures Anchors(ExampleAnchors)
    ensures TimepointWeights(ExampleAnchors, -4.0) == Bracket(0, 1, 0.5, 0.5)
  {
    assert Anchors(ExampleAnchors);
    FractionalIndexCases(ExampleAnchors, -4.0);
    assert Segment(ExampleAnchors, -4.0) == 1;
    assert FractionalIndex(ExampleAnchors, -4.0) == 0.5;
    FloorOfSplit(0, 0.5);
  }

  /** Under the early draw the books combine to 0.72, under the late one to 0.66. */
  lemma ExampleForecasts()
    ensures AvailableWeight(EarlyDraw, ExampleFlags) == 1.0 && CombinedForecast(EarlyDraw, ExampleFlags, ExampleQuotes) == 0.72
    ensures AvailableWeight(LateDraw, ExampleFlags) == 1.0 && CombinedForecast(LateDraw, ExampleFlags, ExampleQuotes) == 0.66
  {
    assert AvailableWeight(EarlyDraw[1..], ExampleFlags[1..]) == 0.6;
    assert QuotedMass(EarlyDraw[1..], ExampleFlags[1..], ExampleQuotes[1..]) == 0.48;
    assert AvailableWeight(LateDraw[1..], ExampleFlags[1..]) == 0.3;
    assert QuotedMass(LateDraw[1..], ExampleFlags[1..], ExampleQuotes[1..]) == 0.24;
  }

  /** The scenario meets the combination's input conditions. */
  lemma ExampleInputs()
    ensures CombineInputs(ExampleAnchors, ExampleDraws, ExampleFlags, ExampleQuotes, -4.0)
  {
    ExampleWeights();
    ExampleForecasts();
    assert DrawSample(ExampleDraws[0], 2) && DrawSample(ExampleDraws[1], 2);
    assert Quoted(ExampleDraws[0], ExampleFlags) && Quoted(ExampleDraws[1], ExampleFlags);
  }

  /** One anchor's five forecasts, each carrying a tenth of the mass. */
  lemma ExampleAnchorSamples(draws: seq<seq<real>>, w: seq<real>, x: real)
    requires |w| == 2 && AvailableWeight(w, ExampleFlags) == 1.0
    requires CombinedForecast(w, ExampleFlags, ExampleQuotes) == x
    requires draws == seq(5, _ => w)
    ensures Quoted(draws, ExampleFlags)
    ensures AnchorSamples(DrawForecasts(draws, ExampleFlags, ExampleQuotes), 0.5) == Copies(5, Sample(x, 0.1))
  {
    assert DrawForecasts(draws, ExampleFlags, ExampleQuotes) == Constant(5, x);
  }

  /** The pool holds five samples of 0.72 and five of 0.66, each of mass 0.1. */
  lemma ExamplePool()
    ensures CombineInputs(ExampleAnchors, ExampleDraws, ExampleFlags, ExampleQuotes, -4.0)
    ensures Pool(ExampleAnchors, ExampleDraws, ExampleFlags, ExampleQuotes, -4.0)
         == Copies(5, Sample(0.72, 0.1)) + Copies(5, Sample(0.66, 0.1))
  {
    ExampleInputs();
    ExampleWeights();
    ExampleForecasts();
    ExampleAnchorSamples(ExampleDraws[0], EarlyDraw, 0.72);
    ExampleAnchorSamples(ExampleDraws[1], LateDraw, 0.66);
  }

  /** The ascending pool is a sorted rearrangement of the pool. */
  lemma ExampleSorted()
    ensures CombineInputs(ExampleAnchors, ExampleDraws, ExampleFlags, ExampleQuotes, -4.0)
    ensures SortsPool(SortedExamplePool, ExampleAnchors, ExampleDraws, ExampleFlags, ExampleQuotes, -4.0)
  {
    ExamplePool();
    var low, high := Copies(5, Sample(0.66, 0.1)), Copies(5, Sample(0.72, 0.1));
    assert multiset(low + high) == multiset(high + low);
    assert SortedBy(SortedExamplePool, Value);
  }

  /** The first `k` samples of the ascending pool carry mass `k / 10`. */
  lemma ExamplePrefixMass(k: nat)
    requires k <= 10
    ensures TotalMass(SortedExamplePool[..k]) == k as real * 0.1
  {
    ConstantMassSums(SortedExamplePool[..k], 0.1, Values(SortedExamplePool)[..k]);
  }

  /** The mean is 0.69; the 2.5% quantile is the smallest value and the 97.5% quantile
      the largest. */
  lemma ExampleSummary()
    ensures |SortedExamplePool| >= 2 && TotalMass(SortedExamplePool) == 1.0
    ensures Summarise(SortedExamplePool, 0.05) == Combined(0.69, 0.66, 0.72)
  {
    var s := SortedExamplePool;
    assert s[..10] == s;
    ExamplePrefixMass(10);
    ExamplePrefixMass(9);
    ExamplePrefixMass(1);
    ConstantMassSums(s, 0.1, Values(s));
    assert Values(s) == Constant(5, 0.66) + Constant(5, 0.72);
    SumOfAppend(Constant(5, 0.66), Constant(5, 0.72), Id);
    SumConstant(5, 0.66);
    SumConstant(5, 0.72);
    assert WeightedMean(s) == 0.69;
    CdfShape(s);
    var c := Cdf(s);
    assert c[0] == 0.1 && c[8] == 0.9 && c[9] == 1.0;
    assert Quantile(s, 0.025) == 0.66;
    assert Segment(c, 0.975) == 9;
    assert Quantile(s, 0.975) == Lerp(0.72, 0.72, (0.975 - 0.9) / (1.0 - 0.9));
  }

  /** The scenario's result: time weights 0.5 and 0.5, anchor forecasts 0.72 and 0.66,
      estimate 0.69 and credible interval [0.66, 0.72]. */
  lemma WorkedExample()
    ensures TimepointWeights(ExampleAnchors, -4.0) == Bracket(0, 1, 0.5, 0.5)
    ensures CombinedForecast(EarlyDraw, ExampleFlags, ExampleQuotes) == 0.72
    ensures CombinedForecast(LateDraw, ExampleFlags, ExampleQuotes) == 0.66
    ensures CombinesTo(ExampleAnchors, ExampleDraws, ExampleFlags, ExampleQuotes, -4.0, 0.05, Combined(0.69, 0.66, 0.72))
  {
    ExampleWeights();
    ExampleForecasts();
    ExampleSorted();
    ExampleSummary();
  }
}
