/** The availability-gated, renormalised weighted average of forecaster quotes,
    `Σ_j w_j·v_j·f_j / Σ_j w_j·v_j`. The same formula combines the quotes of one
    training row under a weight vector (estimate_weights.py) and the live quotes
    under one posterior draw (combine_forecasts.py). */
module Forecast {
  import opened Seqs

  /** Σ_j w_j·v_j·f_j */
  function QuotedMass(w: seq<real>, v: seq<int>, f: seq<real>): real
    requires |w| == |v| == |f|
  {
    if w == [] then 0.0
    else w[0] * (v[0] as real) * f[0] + QuotedMass(w[1..], v[1..], f[1..])
  }

  /** Σ_j w_j·v_j: the weight carried by the forecasters that quoted. */
  function AvailableWeight(w: seq<real>, v: seq<int>): real
    requires |w| == |v|
  {
    if w == [] then 0.0
    else w[0] * (v[0] as real) + AvailableWeight(w[1..], v[1..])
  }

  /** Every availability flag is 0 or 1. */
  ghost predicate IsAvailability(v: seq<int>)
  {
    forall j :: 0 <= j < |v| ==> v[j] == 0 || v[j] == 1
  }

  ghost predicate NonNegative(w: seq<real>)
  {
    forall j :: 0 <= j < |w| ==> w[j] >= 0.0
  }

  /** The combined probability of one row (or one posterior draw). The source
      divides without a guard, so a zero denominator is excluded here. */
  function CombinedForecast(w: seq<real>, v: seq<int>, f: seq<real>): real
    requires |w| == |v| == |f|
    requires AvailableWeight(w, v) != 0.0
  {
    QuotedMass(w, v, f) / AvailableWeight(w, v)
  }

  lemma {:induction false} AvailableWeightNonNegative(w: seq<real>, v: seq<int>)
    requires |w| == |v| && NonNegative(w) && IsAvailability(v)
    ensures AvailableWeight(w, v) >= 0.0
  {
    if w != [] {
      AvailableWeightNonNegative(w[1..], v[1..]);
    }
  }

  /** One available forecaster with positive weight makes the denominator positive. */
  lemma {:induction false} AvailableWeightPositive(w: seq<real>, v: seq<int>, k: nat)
    requires |w| == |v| && NonNegative(w) && IsAvailability(v)
    requires k < |v| && v[k] == 1 && w[k] > 0.0
    ensures AvailableWeight(w, v) > 0.0
  {
    if k == 0 {
      AvailableWeightNonNegative(w[1..], v[1..]);
    } else {
      AvailableWeightPositive(w[1..], v[1..], k - 1);
      assert w[0] * (v[0] as real) >= 0.0;
    }
  }

  lemma QuotedMassBounds(w: seq<real>, v: seq<int>, f: seq<real>, lo: real, hi: real)
    requires |w| == |v| == |f| && NonNegative(w) && IsAvailability(v)
    requires forall j :: 0 <= j < |v| && v[j] == 1 ==> lo <= f[j] <= hi
    ensures AvailableWeight(w, v) >= 0.0
    ensures lo * AvailableWeight(w, v) <= QuotedMass(w, v, f) <= hi * AvailableWeight(w, v)
  {
    AvailableWeightNonNegative(w, v);
    QuotedMassLower(w, v, f, lo);
    QuotedMassUpper(w, v, f, hi);
  }

  lemma {:induction false} QuotedMassLower(w: seq<real>, v: seq<int>, f: seq<real>, lo: real)
    requires |w| == |v| == |f| && NonNegative(w) && IsAvailability(v)
    requires forall j :: 0 <= j < |v| && v[j] == 1 ==> lo <= f[j]
    ensures lo * AvailableWeight(w, v) <= QuotedMass(w, v, f)
  {
    if w == [] {
      EmptyBound(lo, AvailableWeight(w, v), QuotedMass(w, v, f));
    } else {
      TailQuotes(v, f, lo, AboveOrAt);
      QuotedMassLower(w[1..], v[1..], f[1..], lo);
      StepLower(lo, w[0], v[0], f[0], AvailableWeight(w[1..], v[1..]), QuotedMass(w[1..], v[1..], f[1..]),
                AvailableWeight(w, v), QuotedMass(w, v, f));
    }
  }

  lemma {:induction false} QuotedMassUpper(w: seq<real>, v: seq<int>, f: seq<real>, hi: real)
    requires |w| == |v| == |f| && NonNegative(w) && IsAvailability(v)
    requires forall j :: 0 <= j < |v| && v[j] == 1 ==> f[j] <= hi
    ensures QuotedMass(w, v, f) <= hi * AvailableWeight(w, v)
  {
    if w == [] {
      EmptyBound(hi, AvailableWeight(w, v), QuotedMass(w, v, f));
    } else {
      TailQuotes(v, f, hi, BelowOrAt);
      QuotedMassUpper(w[1..], v[1..], f[1..], hi);
      StepUpper(hi, w[0], v[0], f[0], AvailableWeight(w[1..], v[1..]), QuotedMass(w[1..], v[1..], f[1..]),
                AvailableWeight(w, v), QuotedMass(w, v, f));
    }
  }

  function AboveOrAt(bound: real, x: real): bool { bound <= x }
  function BelowOrAt(bound: real, x: real): bool { x <= bound }

  /** What holds of every available quote holds of those after the first. */
  lemma TailQuotes(v: seq<int>, f: seq<real>, bound: real, rel: (real, real) -> bool)
    requires |v| == |f| > 0
    requires forall j :: 0 <= j < |v| && v[j] == 1 ==> rel(bound, f[j])
    ensures forall j :: 0 <= j < |v[1..]| && v[1..][j] == 1 ==> rel(bound, f[1..][j])
  {
    forall j | 0 <= j < |v[1..]| && v[1..][j] == 1 ensures rel(bound, f[1..][j]) {
      assert v[1..][j] == v[j + 1] && f[1..][j] == f[j + 1];
    }
  }

  /** No forecaster: both sums are 0 and every bound holds with equality. */
  lemma EmptyBound(c: real, a: real, q: real)
    requires a == 0.0 && q == 0.0
    ensures c * a == q
  {
  }

  /** One more forecaster keeps the lower bound of the quoted mass. */
  lemma StepLower(lo: real, w0: real, v0: int, f0: real, a1: real, q1: real, a: real, q: real)
    requires w0 >= 0.0 && (v0 == 0 || v0 == 1) && (v0 == 1 ==> lo <= f0)
    requires a == w0 * (v0 as real) + a1 && q == w0 * (v0 as real) * f0 + q1
    requires lo * a1 <= q1
    ensures lo * a <= q
  {
    TermLower(w0, v0, f0, lo);
    AddLower(lo, a, w0 * (v0 as real), a1, q, w0 * (v0 as real) * f0, q1);
  }

  /** One more forecaster keeps the upper bound of the quoted mass. */
  lemma StepUpper(hi: real, w0: real, v0: int, f0: real, a1: real, q1: real, a: real, q: real)
    requires w0 >= 0.0 && (v0 == 0 || v0 == 1) && (v0 == 1 ==> f0 <= hi)
    requires a == w0 * (v0 as real) + a1 && q == w0 * (v0 as real) * f0 + q1
    requires q1 <= hi * a1
    ensures q <= hi * a
  {
    TermUpper(w0, v0, f0, hi);
    AddUpper(hi, a, w0 * (v0 as real), a1, q, w0 * (v0 as real) * f0, q1);
  }

  lemma AddLower(c: real, a: real, a0: real, a1: real, q: real, q0: real, q1: real)
    requires a == a0 + a1 && q == q0 + q1
    requires c * a0 <= q0 && c * a1 <= q1
    ensures c * a <= q
  {
    assert c * (a0 + a1) == c * a0 + c * a1;
  }

  lemma AddUpper(c: real, a: real, a0: real, a1: real, q: real, q0: real, q1: real)
    requires a == a0 + a1 && q == q0 + q1
    requires q0 <= c * a0 && q1 <= c * a1
    ensures q <= c * a
  {
    assert c * (a0 + a1) == c * a0 + c * a1;
  }

  lemma TermLower(w0: real, v0: int, f0: real, lo: real)
    requires w0 >= 0.0 && (v0 == 0 || v0 == 1)
    requires v0 == 1 ==> lo <= f0
    ensures lo * (w0 * (v0 as real)) <= w0 * (v0 as real) * f0
  {
    if v0 == 1 {
      assert w0 * (f0 - lo) >= 0.0;
    }
  }

  lemma TermUpper(w0: real, v0: int, f0: real, hi: real)
    requires w0 >= 0.0 && (v0 == 0 || v0 == 1)
    requires v0 == 1 ==> f0 <= hi
    ensures w0 * (v0 as real) * f0 <= hi * (w0 * (v0 as real))
  {
    if v0 == 1 {
      assert w0 * (hi - f0) >= 0.0;
    }
  }

  /** With nonnegative weights, the combined value lies between the smallest and the
      largest quote of the forecasters that are available. */
  lemma CombinedForecastBounds(w: seq<real>, v: seq<int>, f: seq<real>, lo: real, hi: real)
    requires |w| == |v| == |f| && NonNegative(w) && IsAvailability(v)
    requires AvailableWeight(w, v) != 0.0
    requires forall j :: 0 <= j < |v| && v[j] == 1 ==> lo <= f[j] <= hi
    ensures lo <= CombinedForecast(w, v, f) <= hi
  {
    QuotedMassBounds(w, v, f, lo, hi);
    CombinedRatioBounds(w, v, f, lo, hi);
  }

  lemma CombinedRatioBounds(w: seq<real>, v: seq<int>, f: seq<real>, lo: real, hi: real)
    requires |w| == |v| == |f| && AvailableWeight(w, v) != 0.0 && AvailableWeight(w, v) >= 0.0
    requires lo * AvailableWeight(w, v) <= QuotedMass(w, v, f) <= hi * AvailableWeight(w, v)
    ensures lo <= CombinedForecast(w, v, f) <= hi
  {
    QuotientBounds(QuotedMass(w, v, f), AvailableWeight(w, v), lo, hi);
  }

  lemma QuotientBounds(q: real, a: real, lo: real, hi: real)
    requires a >= 0.0 && a != 0.0 && lo * a <= q <= hi * a
    ensures lo <= q / a <= hi
  {
    var r := q / a;
    assert r * a == q;
    assert (r - lo) * a >= 0.0;
    assert (hi - r) * a >= 0.0;
  }

  lemma {:induction false} SingleAvailableSums(w: seq<real>, v: seq<int>, f: seq<real>, k: nat)
    requires |w| == |v| == |f| && k < |v|
    requires v[k] == 1 && forall j :: 0 <= j < |v| && j != k ==> v[j] == 0
    ensures AvailableWeight(w, v) == w[k]
    ensures QuotedMass(w, v, f) == w[k] * f[k]
  {
    if k == 0 {
      ZeroAvailability(w[1..], v[1..], f[1..]);
    } else {
      SingleAvailableSums(w[1..], v[1..], f[1..], k - 1);
    }
  }

  lemma {:induction false} ZeroAvailability(w: seq<real>, v: seq<int>, f: seq<real>)
    requires |w| == |v| == |f|
    requires forall j :: 0 <= j < |v| ==> v[j] == 0
    ensures AvailableWeight(w, v) == 0.0 && QuotedMass(w, v, f) == 0.0
  {
    if w != [] {
      ZeroAvailability(w[1..], v[1..], f[1..]);
    }
  }

  /** A weighted average over a single available forecaster is that forecaster's quote. */
  lemma CombinedForecastSingle(w: seq<real>, v: seq<int>, f: seq<real>, k: nat)
    requires |w| == |v| == |f| && k < |v|
    requires v[k] == 1 && forall j :: 0 <= j < |v| && j != k ==> v[j] == 0
    requires w[k] != 0.0
    ensures AvailableWeight(w, v) == w[k]
    ensures CombinedForecast(w, v, f) == f[k]
  {
    SingleAvailableSums(w, v, f, k);
  }

  lemma {:induction false} QuotedMassGated(w: seq<real>, v: seq<int>, f: seq<real>, g: seq<real>)
    requires |w| == |v| == |f| == |g| && IsAvailability(v)
    requires forall j :: 0 <= j < |v| && v[j] == 1 ==> f[j] == g[j]
    ensures QuotedMass(w, v, f) == QuotedMass(w, v, g)
  {
    if w != [] {
      QuotedMassGated(w[1..], v[1..], f[1..], g[1..]);
    }
  }

  /** The placeholder stored for an unavailable forecaster never enters the result:
      two quote vectors that agree on the available forecasters combine alike. */
  lemma CombinedForecastIgnoresUnavailable(w: seq<real>, v: seq<int>, f: seq<real>, g: seq<real>)
    requires |w| == |v| == |f| == |g| && IsAvailability(v)
    requires AvailableWeight(w, v) != 0.0
    requires forall j :: 0 <= j < |v| && v[j] == 1 ==> f[j] == g[j]
    ensures CombinedForecast(w, v, f) == CombinedForecast(w, v, g)
  {
    QuotedMassGated(w, v, f, g);
  }

  lemma {:induction false} ScaledSums(c: real, w: seq<real>, v: seq<int>, f: seq<real>)
    requires |w| == |v| == |f|
    ensures AvailableWeight(Scale(c, w), v) == c * AvailableWeight(w, v)
    ensures QuotedMass(Scale(c, w), v, f) == c * QuotedMass(w, v, f)
  {
    if w != [] {
      ScaledSums(c, w[1..], v[1..], f[1..]);
      assert Scale(c, w)[1..] == Scale(c, w[1..]);
    }
  }

  /** Renormalisation: only the relative size of the weights matters. */
  lemma CombinedForecastScaleInvariant(c: real, w: seq<real>, v: seq<int>, f: seq<real>)
    requires |w| == |v| == |f| && c > 0.0
    requires AvailableWeight(w, v) != 0.0
    ensures AvailableWeight(Scale(c, w), v) != 0.0
    ensures CombinedForecast(Scale(c, w), v, f) == CombinedForecast(w, v, f)
  {
    ScaledSums(c, w, v, f);
    CancelFactor(c, QuotedMass(w, v, f), AvailableWeight(w, v));
  }

  lemma CancelFactor(c: real, q: real, a: real)
    requires c > 0.0 && a != 0.0
    ensures c * a != 0.0 && (c * q) / (c * a) == q / a
  {
  }

  /** Every forecaster available. */
  function Ones(n: nat): (v: seq<int>)
    ensures |v| == n && forall j :: 0 <= j < n ==> v[j] == 1
  {
    seq(n, j => 1)
  }

  /** The quote vector that gives forecaster `k` the value 1 and every other one 0. */
  function Indicator(n: nat, k: nat): (f: seq<real>)
    ensures |f| == n && forall j :: 0 <= j < n ==> f[j] == if j == k then 1.0 else 0.0
  {
    seq(n, j => if j == k then 1.0 else 0.0)
  }

  lemma {:induction false} AvailableWeightAll(w: seq<real>)
    ensures AvailableWeight(w, Ones(|w|)) == Sum(w)
  {
    if w != [] {
      assert Ones(|w|)[1..] == Ones(|w| - 1);
      AvailableWeightAll(w[1..]);
    }
  }

  lemma {:induction false} QuotedMassIndicator(w: seq<real>, k: nat)
    ensures QuotedMass(w, Ones(|w|), Indicator(|w|, k)) == if k < |w| then w[k] else 0.0
  {
    if w != [] {
      assert Ones(|w|)[1..] == Ones(|w| - 1);
      if k == 0 {
        assert Indicator(|w|, k)[1..] == Indicator(|w| - 1, |w|);
        QuotedMassIndicator(w[1..], |w|);
      } else {
        assert Indicator(|w|, k)[1..] == Indicator(|w| - 1, k - 1);
        QuotedMassIndicator(w[1..], k - 1);
      }
    }
  }

  /** With every forecaster available and the quote 1 for forecaster `k` only, the
      combination reads off the share of the weight that `k` carries. */
  lemma IndicatorForecast(w: seq<real>, k: nat)
    requires k < |w| && Sum(w) != 0.0
    ensures AvailableWeight(w, Ones(|w|)) == Sum(w)
    ensures CombinedForecast(w, Ones(|w|), Indicator(|w|, k)) == w[k] / Sum(w)
  {
    AvailableWeightAll(w);
    QuotedMassIndicator(w, k);
  }

  /** ...and these shares add up to 1 over all forecasters. */
  lemma SharesSumToOne(w: seq<real>)
    requires Sum(w) != 0.0
    ensures Sum(Scale(1.0 / Sum(w), w)) == 1.0
  {
    SumScale(1.0 / Sum(w), w);
    assert (1.0 / Sum(w)) * Sum(w) == 1.0;
  }
}
