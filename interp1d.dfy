/** Linear interpolation as scipy's `interp1d(xs, ys, kind='linear', bounds_error=False)`
    evaluates it, in the two fill modes the forecast combination uses:
    `fill_value='extrapolate'` (the anchor-index interpolator) and
    `fill_value=(ys[0], ys[-1])` (reading a quantile off a cumulative mass curve).
    scipy locates the segment of a point `x` with `searchsorted(xs, x)` (side 'left'),
    clips the index to `[1, n-1]`, and evaluates the line through the two end points
    of that segment. */
module Interp1d {

  ghost predicate Nondecreasing(xs: seq<real>)
  {
    forall i, j :: 0 <= i <= j < |xs| ==> xs[i] <= xs[j]
  }

  /** numpy's `searchsorted(xs, x)` with side 'left': the first index whose entry is at
      least `x`, or `|xs|` when there is none (on a sorted `xs`, the number of entries
      below `x`). */
  function SearchSorted(xs: seq<real>, x: real): (i: nat)
    ensures i <= |xs|
    ensures forall j :: 0 <= j < i ==> xs[j] < x
    ensures i < |xs| ==> x <= xs[i]
  {
    if xs == [] || x <= xs[0] then 0 else 1 + SearchSorted(xs[1..], x)
  }

  /** A larger query never lands before a smaller one. */
  lemma {:induction false} SearchSortedMonotone(xs: seq<real>, x1: real, x2: real)
    requires x1 <= x2
    ensures SearchSorted(xs, x1) <= SearchSorted(xs, x2)
  {
    if xs != [] && xs[0] < x1 {
      SearchSortedMonotone(xs[1..], x1, x2);
    }
  }

  /** `numpy.clip(i, 1, n - 1)` */
  function Clip(i: nat, n: nat): (c: nat)
    requires n >= 2
    ensures 1 <= c <= n - 1
    ensures 1 <= i <= n - 1 ==> c == i
  {
    if i < 1 then 1 else if i > n - 1 then n - 1 else i
  }

  /** The point at fraction `r` of the way from `y0` to `y1`. */
  function Lerp(y0: real, y1: real, r: real): real
  {
    y0 + (y1 - y0) * r
  }

  lemma LerpBounds(y0: real, y1: real, r: real)
    requires y0 <= y1 && 0.0 <= r <= 1.0
    ensures y0 <= Lerp(y0, y1, r) <= y1
  {
    MulNonNegative(y1 - y0, r);
    MulNonNegative(y1 - y0, 1.0 - r);
  }

  lemma LerpMonotone(y0: real, y1: real, r1: real, r2: real)
    requires y0 <= y1 && r1 <= r2
    ensures Lerp(y0, y1, r1) <= Lerp(y0, y1, r2)
  {
    MulNonNegative(y1 - y0, r2 - r1);
  }

  lemma MulNonNegative(a: real, b: real)
    requires a >= 0.0 && b >= 0.0
    ensures a * b >= 0.0
  {
  }

  /** The index of the segment scipy evaluates `x` on. */
  function Segment(xs: seq<real>, x: real): (i: nat)
    requires |xs| >= 2
    ensures 1 <= i < |xs|
  {
    Clip(SearchSorted(xs, x), |xs|)
  }

  /** On a nondecreasing grid, a point inside the grid's range falls between the two end
      points of its segment. */
  lemma SegmentBrackets(xs: seq<real>, x: real)
    requires |xs| >= 2 && Nondecreasing(xs)
    requires xs[0] <= x <= xs[|xs| - 1]
    ensures xs[Segment(xs, x) - 1] <= x <= xs[Segment(xs, x)]
    ensures SearchSorted(xs, x) >= 1 ==> xs[Segment(xs, x) - 1] < x
  {
  }

  /** `interp1d(xs, ys, fill_value='extrapolate')(x)`: the line through the segment's end
      points, also outside the grid. */
  function Extrapolated(xs: seq<real>, ys: seq<real>, x: real): real
    requires |xs| == |ys| >= 2
    requires forall i :: 1 <= i < |xs| ==> xs[i - 1] < xs[i]
  {
    var i := Segment(xs, x);
    Lerp(ys[i - 1], ys[i], (x - xs[i - 1]) / (xs[i] - xs[i - 1]))
  }

  /** `interp1d(xs, ys, fill_value=(ys[0], ys[-1]))(x)`: the end values outside the grid.
      On a segment of zero width scipy divides zero by zero and yields NaN; the value
      there is taken to be the segment's left end. */
  function Filled(xs: seq<real>, ys: seq<real>, x: real): real
    requires |xs| == |ys| >= 2
  {
    var n := |xs|;
    if x < xs[0] then ys[0]
    else if x > xs[n - 1] then ys[n - 1]
    else
      var i := Segment(xs, x);
      if xs[i] == xs[i - 1] then ys[i - 1]
      else Lerp(ys[i - 1], ys[i], (x - xs[i - 1]) / (xs[i] - xs[i - 1]))
  }

  lemma FractionBounds(a: real, x: real, b: real)
    requires a <= x <= b && a < b
    ensures 0.0 <= (x - a) / (b - a) <= 1.0
  {
    var r := (x - a) / (b - a);
    assert r * (b - a) == x - a;
    assert (b - a) * (1.0 - r) == b - x;
  }

  lemma FractionMonotone(a: real, x1: real, x2: real, b: real)
    requires x1 <= x2 && a < b
    ensures (x1 - a) / (b - a) <= (x2 - a) / (b - a)
  {
    var r1, r2 := (x1 - a) / (b - a), (x2 - a) / (b - a);
    assert r1 * (b - a) == x1 - a && r2 * (b - a) == x2 - a;
    assert (r2 - r1) * (b - a) == x2 - x1;
  }

  /** Inside the grid the filled interpolant stays between the end points of the segment
      the query falls on. */
  lemma FilledOnSegment(xs: seq<real>, ys: seq<real>, x: real)
    requires |xs| == |ys| >= 2 && Nondecreasing(xs) && Nondecreasing(ys)
    requires xs[0] <= x <= xs[|xs| - 1]
    ensures ys[Segment(xs, x) - 1] <= Filled(xs, ys, x) <= ys[Segment(xs, x)]
  {
    var i := Segment(xs, x);
    SegmentBrackets(xs, x);
    if xs[i] != xs[i - 1] {
      FractionBounds(xs[i - 1], x, xs[i]);
      LerpBounds(ys[i - 1], ys[i], (x - xs[i - 1]) / (xs[i] - xs[i - 1]));
    }
  }

  /** The filled interpolant of a nondecreasing curve never leaves the range of its
      values. */
  lemma FilledBounds(xs: seq<real>, ys: seq<real>, x: real)
    requires |xs| == |ys| >= 2 && Nondecreasing(xs) && Nondecreasing(ys)
    ensures ys[0] <= Filled(xs, ys, x) <= ys[|ys| - 1]
  {
    if xs[0] <= x <= xs[|xs| - 1] {
      FilledOnSegment(xs, ys, x);
    }
  }

  /** ...and is itself nondecreasing in the query point. */
  lemma FilledMonotone(xs: seq<real>, ys: seq<real>, x1: real, x2: real)
    requires |xs| == |ys| >= 2 && Nondecreasing(xs) && Nondecreasing(ys)
    requires x1 <= x2
    ensures Filled(xs, ys, x1) <= Filled(xs, ys, x2)
  {
    FilledBounds(xs, ys, x1);
    FilledBounds(xs, ys, x2);
    if xs[0] <= x1 && x2 <= xs[|xs| - 1] {
      SearchSortedMonotone(xs, x1, x2);
      if Segment(xs, x1) == Segment(xs, x2) {
        FilledSameSegment(xs, ys, x1, x2);
      } else {
        FilledOnSegment(xs, ys, x1);
        FilledOnSegment(xs, ys, x2);
      }
    }
  }

  /** Two queries on the same segment keep their order. */
  lemma FilledSameSegment(xs: seq<real>, ys: seq<real>, x1: real, x2: real)
    requires |xs| == |ys| >= 2 && Nondecreasing(xs) && Nondecreasing(ys)
    requires xs[0] <= x1 <= x2 <= xs[|xs| - 1] && Segment(xs, x1) == Segment(xs, x2)
    ensures Filled(xs, ys, x1) <= Filled(xs, ys, x2)
  {
    var i := Segment(xs, x1);
    if xs[i] != xs[i - 1] {
      SegmentBrackets(xs, x1);
      FractionMonotone(xs[i - 1], x1, x2, xs[i]);
      LerpMonotone(ys[i - 1], ys[i], (x1 - xs[i - 1]) / (xs[i] - xs[i - 1]),
                   (x2 - xs[i - 1]) / (xs[i] - xs[i - 1]));
    }
  }
}
