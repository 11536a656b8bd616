/** A weighted empirical distribution: values carrying nonnegative masses, as the pooled
    posterior draws of the forecast combination are. Defines the weighted mean
    (`np.average(values, weights=masses)`), the normalised cumulative mass curve
    (`np.cumsum(masses) / np.sum(masses)`) of a value-sorted sample, and the quantile read
    off that curve by linear interpolation. */
module WeightedSamples {
  import opened Seqs
  import opened Interp1d
  import Forecast

  datatype Sample = Sample(value: real, mass: real)

  function Value(s: Sample): real { s.value }
  function Mass(s: Sample): real { s.mass }
  function Moment(s: Sample): real { s.mass * s.value }

  function TotalMass(s: seq<Sample>): real { SumOf(s, Mass) }
  function WeightedSum(s: seq<Sample>): real { SumOf(s, Moment) }

  ghost predicate NonNegativeMasses(s: seq<Sample>)
  {
    forall i :: 0 <= i < |s| ==> s[i].mass >= 0.0
  }

  /** `np.average(values, weights=masses)` */
  function WeightedMean(s: seq<Sample>): real
    requires TotalMass(s) != 0.0
  {
    WeightedSum(s) / TotalMass(s)
  }

  /** The values in sample order. */
  function Values(s: seq<Sample>): (ys: seq<real>)
    ensures |ys| == |s| && forall i :: 0 <= i < |s| ==> ys[i] == s[i].value
  {
    seq(|s|, i requires 0 <= i < |s| => s[i].value)
  }

  /** `np.cumsum(masses) / np.sum(masses)` */
  function Cdf(s: seq<Sample>): (c: seq<real>)
    requires TotalMass(s) != 0.0
    ensures |c| == |s|
  {
    seq(|s|, i requires 0 <= i < |s| => TotalMass(s[..i + 1]) / TotalMass(s))
  }

  /** The `q`-quantile of a value-sorted sample: the filled interpolant of the values
      against the cumulative mass curve. */
  function Quantile(s: seq<Sample>, q: real): real
    requires |s| >= 2 && TotalMass(s) != 0.0
  {
    Filled(Cdf(s), Values(s), q)
  }

  lemma {:induction false} TotalMassNonNegative(s: seq<Sample>)
    requires NonNegativeMasses(s)
    ensures TotalMass(s) >= 0.0
  {
    if s != [] {
      TotalMassNonNegative(s[1..]);
    }
  }

  /** Both sums, and so the mean, ignore the order of the sample. */
  lemma PermutationSums(s: seq<Sample>, t: seq<Sample>)
    requires multiset(s) == multiset(t)
    ensures TotalMass(s) == TotalMass(t) && WeightedSum(s) == WeightedSum(t)
  {
    SumOfPermutation(s, t, Mass);
    SumOfPermutation(s, t, Moment);
  }

  lemma AppendSums(a: seq<Sample>, b: seq<Sample>)
    ensures TotalMass(a + b) == TotalMass(a) + TotalMass(b)
    ensures WeightedSum(a + b) == WeightedSum(a) + WeightedSum(b)
  {
    SumOfAppend(a, b, Mass);
    SumOfAppend(a, b, Moment);
  }

  lemma {:induction false} WeightedSumLower(s: seq<Sample>, lo: real)
    requires NonNegativeMasses(s)
    requires forall i :: 0 <= i < |s| ==> lo <= s[i].value
    ensures lo * TotalMass(s) <= WeightedSum(s)
  {
    if s != [] {
      WeightedSumLower(s[1..], lo);
      assert s[0].mass * (s[0].value - lo) >= 0.0;
      Forecast.AddLower(lo, TotalMass(s), s[0].mass, TotalMass(s[1..]), WeightedSum(s), Moment(s[0]), WeightedSum(s[1..]));
    }
  }

  lemma {:induction false} WeightedSumUpper(s: seq<Sample>, hi: real)
    requires NonNegativeMasses(s)
    requires forall i :: 0 <= i < |s| ==> s[i].value <= hi
    ensures WeightedSum(s) <= hi * TotalMass(s)
  {
    if s != [] {
      WeightedSumUpper(s[1..], hi);
      assert s[0].mass * (hi - s[0].value) >= 0.0;
      Forecast.AddUpper(hi, TotalMass(s), s[0].mass, TotalMass(s[1..]), WeightedSum(s), Moment(s[0]), WeightedSum(s[1..]));
    }
  }

  /** The weighted mean lies within the range of the values. */
  lemma WeightedMeanBounds(s: seq<Sample>, lo: real, hi: real)
    requires NonNegativeMasses(s) && TotalMass(s) != 0.0
    requires forall i :: 0 <= i < |s| ==> lo <= s[i].value <= hi
    ensures lo <= WeightedMean(s) <= hi
  {
    TotalMassNonNegative(s);
    WeightedSumLower(s, lo);
    WeightedSumUpper(s, hi);
    Forecast.QuotientBounds(WeightedSum(s), TotalMass(s), lo, hi);
  }

  /** The mass of a prefix grows with the prefix and never exceeds the whole. */
  lemma PrefixMassMonotone(s: seq<Sample>, i: nat, j: nat)
    requires NonNegativeMasses(s) && i <= j <= |s|
    ensures 0.0 <= TotalMass(s[..i]) <= TotalMass(s[..j]) <= TotalMass(s)
  {
    assert s[..j] == s[..i] + s[i..j];
    assert s == s[..j] + s[j..];
    AppendSums(s[..i], s[i..j]);
    AppendSums(s[..j], s[j..]);
    TotalMassNonNegative(s[..i]);
    TotalMassNonNegative(s[i..j]);
    TotalMassNonNegative(s[j..]);
  }

  lemma DivideMonotone(a: real, b: real, m: real)
    requires a <= b && m > 0.0
    ensures a / m <= b / m
  {
    Forecast.QuotientBounds(a, m, a / m, b / m);
  }

  /** The cumulative mass curve is nondecreasing, starts at the first mass share, and
      ends at 1. */
  lemma CdfShape(s: seq<Sample>)
    requires |s| >= 1 && NonNegativeMasses(s) && TotalMass(s) != 0.0
    ensures Nondecreasing(Cdf(s))
    ensures Cdf(s)[0] == s[0].mass / TotalMass(s)
    ensures Cdf(s)[|s| - 1] == 1.0
  {
    CdfNondecreasing(s);
    CdfEnds(s);
  }

  lemma CdfNondecreasing(s: seq<Sample>)
    requires NonNegativeMasses(s) && TotalMass(s) != 0.0
    ensures Nondecreasing(Cdf(s))
  {
    var c := Cdf(s);
    TotalMassNonNegative(s);
    forall i, j | 0 <= i <= j < |s| ensures c[i] <= c[j] {
      PrefixMassMonotone(s, i + 1, j + 1);
      DivideMonotone(TotalMass(s[..i + 1]), TotalMass(s[..j + 1]), TotalMass(s));
    }
  }

  lemma CdfEnds(s: seq<Sample>)
    requires |s| >= 1 && TotalMass(s) != 0.0
    ensures Cdf(s)[0] == s[0].mass / TotalMass(s)
    ensures Cdf(s)[|s| - 1] == 1.0
  {
    var m := TotalMass(s);
    assert s[..|s|] == s;
    assert Cdf(s)[|s| - 1] == m / m;
    assert SumOf(s[..1], Mass) == s[0].mass by {
      assert s[..1][1..] == [];
    }
  }

  /** Values of a sample sorted by value are nondecreasing. */
  lemma SortedValues(s: seq<Sample>)
    requires SortedBy(s, Value)
    ensures Nondecreasing(Values(s))
  {
  }

  /** A quantile of a value-sorted sample lies between its smallest and largest value. */
  lemma QuantileBounds(s: seq<Sample>, q: real)
    requires |s| >= 2 && NonNegativeMasses(s) && TotalMass(s) != 0.0
    requires SortedBy(s, Value)
    ensures s[0].value <= Quantile(s, q) <= s[|s| - 1].value
  {
    CdfShape(s);
    SortedValues(s);
    FilledBounds(Cdf(s), Values(s), q);
  }

  /** ...and is nondecreasing in the probability level. */
  lemma QuantileMonotone(s: seq<Sample>, q1: real, q2: real)
    requires |s| >= 2 && NonNegativeMasses(s) && TotalMass(s) != 0.0
    requires SortedBy(s, Value)
    requires q1 <= q2
    ensures Quantile(s, q1) <= Quantile(s, q2)
  {
    CdfShape(s);
    SortedValues(s);
    FilledMonotone(Cdf(s), Values(s), q1, q2);
  }
}
