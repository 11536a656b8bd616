/** Generic sequence operations that the dataframe passes of the model are
    built from: filtering, pandas-style duplicate handling, first-index
    lookup and an insertion sort by a real-valued key. */
module Seqs {

  /** A value that may be missing (`pd.NA`, `None`). */
  datatype Option<T> = None | Some(value: T)

  /** Rows of `s` that satisfy `p`, in their original order (a boolean-mask selection). */
  function Filter<T(!new)>(s: seq<T>, p: T -> bool): (r: seq<T>)
    ensures |r| <= |s|
    ensures forall x :: x in r <==> x in s && p(x)
  {
    if s == [] then []
    else (if p(s[0]) then [s[0]] else []) + Filter(s[1..], p)
  }

  lemma {:induction false} FilterMultiset<T(!new)>(s: seq<T>, p: T -> bool)
    ensures forall x :: multiset(Filter(s, p))[x] == if p(x) then multiset(s)[x] else 0
  {
    if s != [] {
      FilterMultiset(s[1..], p);
      assert s == [s[0]] + s[1..];
    }
  }

  lemma {:induction false} FilterAppend<T(!new)>(a: seq<T>, b: seq<T>, p: T -> bool)
    ensures Filter(a + b, p) == Filter(a, p) + Filter(b, p)
  {
    if a == [] {
      assert a + b == b;
    } else {
      assert (a + b)[0] == a[0] && (a + b)[1..] == a[1..] + b;
      FilterAppend(a[1..], b, p);
      var h := if p(a[0]) then [a[0]] else [];
      calc {
        Filter(a + b, p);
        h + Filter(a[1..] + b, p);
        h + (Filter(a[1..], p) + Filter(b, p));
        (h + Filter(a[1..], p)) + Filter(b, p);
      }
    }
  }

  /** Filtering with the same predicate gives the same number of rows on any reordering. */
  lemma FilterCountPermutation<T(!new)>(s: seq<T>, t: seq<T>, p: T -> bool)
    requires multiset(s) == multiset(t)
    ensures |Filter(s, p)| == |Filter(t, p)|
  {
    var fs, ft := Filter(s, p), Filter(t, p);
    FilterMultiset(s, p);
    FilterMultiset(t, p);
    assert multiset(fs) == multiset(ft);
    calc {
      |fs|;
      |multiset(fs)|;
      |multiset(ft)|;
      |ft|;
    }
  }

  /** If every row from position `k` on satisfies `p`, at least `|s| - k` rows survive. */
  lemma FilterSuffixLowerBound<T(!new)>(s: seq<T>, k: nat, p: T -> bool)
    requires k <= |s|
    requires forall i :: k <= i < |s| ==> p(s[i])
    ensures |Filter(s, p)| >= |s| - k
  {
    assert s == s[..k] + s[k..];
    FilterAppend(s[..k], s[k..], p);
    assert Filter(s[k..], p) == s[k..] by { FilterAll(s[k..], p); }
  }

  /** If no row from position `k` on satisfies `p`, at most `k` rows survive. */
  lemma FilterSuffixUpperBound<T(!new)>(s: seq<T>, k: nat, p: T -> bool)
    requires k <= |s|
    requires forall i :: k <= i < |s| ==> !p(s[i])
    ensures |Filter(s, p)| <= k
  {
    assert s == s[..k] + s[k..];
    FilterAppend(s[..k], s[k..], p);
    assert Filter(s[k..], p) == [] by { FilterNone(s[k..], p); }
  }

  /** A row lands on exactly one side of a mask and its negation. */
  lemma {:induction false} FilterComplement<T(!new)>(s: seq<T>, p: T -> bool, q: T -> bool)
    requires forall x :: q(x) == !p(x)
    ensures |Filter(s, p)| + |Filter(s, q)| == |s|
  {
    if s != [] {
      FilterComplement(s[1..], p, q);
    }
  }

  /** Two tables whose rows agree wherever the mask selects them, and that the mask
      selects at the same positions, give the same selection. */
  lemma {:induction false} FilterSame<T(!new)>(a: seq<T>, c: seq<T>, p: T -> bool)
    requires |a| == |c|
    requires forall i :: 0 <= i < |a| ==> p(a[i]) == p(c[i]) && (p(a[i]) ==> a[i] == c[i])
    ensures Filter(a, p) == Filter(c, p)
  {
    if a != [] {
      FilterSame(a[1..], c[1..], p);
    }
  }

  /** Filtering keeps a sequence sorted. */
  lemma {:induction false} FilterSorted<T(!new)>(s: seq<T>, p: T -> bool, key: T -> real)
    requires SortedBy(s, key)
    ensures SortedBy(Filter(s, p), key)
  {
    if s != [] {
      var tail := Filter(s[1..], p);
      assert SortedBy(s[1..], key);
      FilterSorted(s[1..], p, key);
      if p(s[0]) {
        var r := [s[0]] + tail;
        forall i, j | 0 <= i < j < |r| ensures key(r[i]) <= key(r[j]) {
          assert r[j] == tail[j - 1] && tail[j - 1] in tail;
          if i > 0 {
            assert r[i] == tail[i - 1];
          } else {
            var m :| 0 <= m < |s[1..]| && s[1..][m] == tail[j - 1];
            assert s[m + 1] == r[j];
          }
        }
        assert Filter(s, p) == r;
      } else {
        assert Filter(s, p) == tail;
      }
    }
  }

  /** `key` strictly increases along `s`. */
  ghost predicate IncreasingBy<T>(s: seq<T>, key: T -> int)
  {
    forall i, j :: 0 <= i < j < |s| ==> key(s[i]) < key(s[j])
  }

  lemma ConsIncreasing<T>(x: T, t: seq<T>, key: T -> int)
    requires IncreasingBy(t, key)
    requires forall i :: 0 <= i < |t| ==> key(x) < key(t[i])
    ensures IncreasingBy([x] + t, key)
  {
    var r := [x] + t;
    forall i, j | 0 <= i < j < |r| ensures key(r[i]) < key(r[j]) {
      assert r[j] == t[j - 1];
      if i > 0 { assert r[i] == t[i - 1]; }
    }
  }

  /** Filtering keeps a strictly increasing key strictly increasing. */
  lemma {:induction false} FilterIncreasing<T(!new)>(s: seq<T>, p: T -> bool, key: T -> int)
    requires IncreasingBy(s, key)
    ensures IncreasingBy(Filter(s, p), key)
  {
    if s != [] {
      var tail := Filter(s[1..], p);
      assert IncreasingBy(s[1..], key);
      FilterIncreasing(s[1..], p, key);
      if p(s[0]) {
        forall i | 0 <= i < |tail| ensures key(s[0]) < key(tail[i]) {
          assert tail[i] in tail;
          var m :| 0 <= m < |s[1..]| && s[1..][m] == tail[i];
          assert s[m + 1] == tail[i];
        }
        ConsIncreasing(s[0], tail, key);
        assert Filter(s, p) == [s[0]] + tail;
      } else {
        assert Filter(s, p) == tail;
      }
    }
  }

  lemma {:induction false} FilterAll<T(!new)>(s: seq<T>, p: T -> bool)
    requires forall i :: 0 <= i < |s| ==> p(s[i])
    ensures Filter(s, p) == s
  {
    if s != [] {
      FilterAll(s[1..], p);
    }
  }

  lemma {:induction false} FilterNone<T(!new)>(s: seq<T>, p: T -> bool)
    requires forall i :: 0 <= i < |s| ==> !p(s[i])
    ensures Filter(s, p) == []
  {
    if s != [] {
      FilterNone(s[1..], p);
    }
  }

  /** Number of rows whose key is `k`. */
  function KeyCount<T(!new), K(==, !new)>(s: seq<T>, key: T -> K, k: K): (n: nat)
    ensures n <= |s|
    ensures n == 0 <==> forall i :: 0 <= i < |s| ==> key(s[i]) != k
  {
    if s == [] then 0
    else (if key(s[0]) == k then 1 else 0) + KeyCount(s[1..], key, k)
  }

  lemma {:induction false} KeyCountTwo<T(!new), K(!new)>(s: seq<T>, key: T -> K, i: nat, j: nat)
    requires i < j < |s| && key(s[i]) == key(s[j])
    ensures KeyCount(s, key, key(s[i])) >= 2
  {
    if i > 0 {
      KeyCountTwo(s[1..], key, i - 1, j - 1);
    } else {
      assert key(s[1..][j - 1]) == key(s[0]);
    }
  }

  /** At most one row per key: two positions with the same key are the same position. */
  lemma KeyCountUnique<T(!new), K(!new)>(s: seq<T>, key: T -> K, i: nat, j: nat)
    requires i < |s| && j < |s| && key(s[i]) == key(s[j])
    requires KeyCount(s, key, key(s[i])) <= 1
    ensures i == j
  {
    if i < j {
      KeyCountTwo(s, key, i, j);
    } else if j < i {
      KeyCountTwo(s, key, j, i);
    }
  }

  /** The rows of `s` whose key occurs exactly once in `all` (the helper behind `DropAllDuplicates`). */
  function KeepSingletons<T(!new), K(==, !new)>(s: seq<T>, all: seq<T>, key: T -> K): (r: seq<T>)
    ensures forall x :: x in r <==> x in s && KeyCount(all, key, key(x)) == 1
  {
    if s == [] then []
    else (if KeyCount(all, key, key(s[0])) == 1 then [s[0]] else []) + KeepSingletons(s[1..], all, key)
  }

  lemma {:induction false} KeepSingletonsCount<T(!new), K(!new)>(s: seq<T>, all: seq<T>, key: T -> K, k: K)
    ensures KeyCount(KeepSingletons(s, all, key), key, k) == if KeyCount(all, key, k) == 1 then KeyCount(s, key, k) else 0
  {
    if s != [] {
      KeepSingletonsCount(s[1..], all, key, k);
      var head := if KeyCount(all, key, key(s[0])) == 1 then [s[0]] else [];
      var tail := KeepSingletons(s[1..], all, key);
      KeyCountAppend(head, tail, key, k);
    }
  }

  lemma {:induction false} KeyCountAppend<T(!new), K(!new)>(a: seq<T>, b: seq<T>, key: T -> K, k: K)
    ensures KeyCount(a + b, key, k) == KeyCount(a, key, k) + KeyCount(b, key, k)
  {
    if a == [] {
      assert a + b == b;
    } else {
      assert (a + b)[0] == a[0] && (a + b)[1..] == a[1..] + b;
      KeyCountAppend(a[1..], b, key, k);
      assert KeyCount(a + b, key, k) == (if key(a[0]) == k then 1 else 0) + KeyCount(a[1..] + b, key, k);
    }
  }

  /** pandas `drop_duplicates(subset = key, keep = False)`: every row whose key occurs more
      than once is removed, none of its copies is kept. */
  function DropAllDuplicates<T(!new), K(==, !new)>(s: seq<T>, key: T -> K): (r: seq<T>)
    ensures forall x :: x in r <==> x in s && KeyCount(s, key, key(x)) == 1
    ensures forall k :: KeyCount(r, key, k) == if KeyCount(s, key, k) == 1 then 1 else 0
    ensures forall i, j :: 0 <= i < |r| && 0 <= j < |r| && key(r[i]) == key(r[j]) ==> i == j
  {
    var r := KeepSingletons(s, s, key);
    forall k ensures KeyCount(r, key, k) == if KeyCount(s, key, k) == 1 then 1 else 0 {
      KeepSingletonsCount(s, s, key, k);
    }
    forall i, j | 0 <= i < |r| && 0 <= j < |r| && key(r[i]) == key(r[j]) ensures i == j {
      KeyCountUnique(r, key, i, j);
    }
    r
  }

  lemma {:induction false} KeepSingletonsAll<T(!new), K(!new)>(s: seq<T>, all: seq<T>, key: T -> K)
    requires forall i :: 0 <= i < |s| ==> KeyCount(all, key, key(s[i])) == 1
    ensures KeepSingletons(s, all, key) == s
  {
    if s != [] {
      KeepSingletonsAll(s[1..], all, key);
    }
  }

  /** Dropping the duplicated keys a second time removes nothing more. */
  lemma DropAllDuplicatesIdempotent<T(!new), K(!new)>(s: seq<T>, key: T -> K)
    ensures DropAllDuplicates(DropAllDuplicates(s, key), key) == DropAllDuplicates(s, key)
  {
    var r := DropAllDuplicates(s, key);
    forall i | 0 <= i < |r| ensures KeyCount(r, key, key(r[i])) == 1 {
      assert KeyCount(r, key, key(r[i])) != 0;
    }
    KeepSingletonsAll(r, r, key);
  }

  /** pandas `drop_duplicates()` / `unique()`: the first occurrence of every value, in order. */
  function Distinct<T(==, !new)>(s: seq<T>): (r: seq<T>)
    ensures |r| <= |s|
    ensures forall x :: x in r <==> x in s
    ensures forall i, j :: 0 <= i < j < |r| ==> r[i] != r[j]
  {
    if s == [] then []
    else
      var d := Distinct(s[..|s| - 1]);
      assert s == s[..|s| - 1] + [s[|s| - 1]];
      if s[|s| - 1] in d then d else d + [s[|s| - 1]]
  }

  /** Python's `list.index`: the first position holding `x`. */
  function IndexOf<T(==, !new)>(s: seq<T>, x: T): (i: nat)
    requires x in s
    ensures i < |s| && s[i] == x
    ensures forall j :: 0 <= j < i ==> s[j] != x
  {
    if s[0] == x then 0 else 1 + IndexOf(s[1..], x)
  }

  /** `s` is in nondecreasing order of `key`. */
  ghost predicate SortedBy<T(!new)>(s: seq<T>, key: T -> real)
  {
    forall i, j :: 0 <= i < j < |s| ==> key(s[i]) <= key(s[j])
  }

  /** Places `x` before the first element whose key is not smaller. */
  function InsertBy<T(!new)>(x: T, s: seq<T>, key: T -> real): (r: seq<T>)
    requires SortedBy(s, key)
    ensures |r| == |s| + 1
    ensures multiset(r) == multiset(s) + multiset{x}
    ensures SortedBy(r, key)
  {
    if s == [] then [x]
    else if key(x) <= key(s[0]) then [x] + s
    else
      var tail := InsertBy(x, s[1..], key);
      assert s == [s[0]] + s[1..];
      var r := [s[0]] + tail;
      assert SortedBy(r, key) by {
        forall i, j | 0 <= i < j < |r| ensures key(r[i]) <= key(r[j]) {
          if i == 0 {
            assert r[j] in multiset(tail);
            assert r[j] == x || r[j] in multiset(s[1..]);
            if r[j] != x {
              var m :| 0 <= m < |s[1..]| && s[1..][m] == r[j];
              assert key(s[0]) <= key(s[m + 1]);
            }
          }
        }
      }
      r
  }

  /** Insertion sort by `key` (an ascending `sort_values` / `argsort` of the rows). */
  function SortBy<T(!new)>(s: seq<T>, key: T -> real): (r: seq<T>)
    ensures |r| == |s|
    ensures multiset(r) == multiset(s)
    ensures SortedBy(r, key)
  {
    if s == [] then []
    else
      assert s == [s[0]] + s[1..];
      InsertBy(s[0], SortBy(s[1..], key), key)
  }

  /** `np.sort(unique(xs))` for real values: strictly increasing, same values. */
  ghost predicate StrictlyIncreasing(xs: seq<real>)
  {
    forall i, j :: 0 <= i < j < |xs| ==> xs[i] < xs[j]
  }

  function InsertUnique(x: real, s: seq<real>): (r: seq<real>)
    requires StrictlyIncreasing(s)
    ensures StrictlyIncreasing(r)
    ensures forall y :: y in r <==> y == x || y in s
  {
    if s == [] then [x]
    else if x < s[0] then [x] + s
    else if x == s[0] then s
    else
      assert s == [s[0]] + s[1..];
      var tail := InsertUnique(x, s[1..]);
      assert forall k :: 0 <= k < |tail| ==> s[0] < tail[k] by {
        forall k | 0 <= k < |tail| ensures s[0] < tail[k] {
          assert tail[k] in tail;
          if tail[k] != x {
            var m :| 0 <= m < |s[1..]| && s[1..][m] == tail[k];
            assert s[m + 1] == tail[k];
          }
        }
      }
      [s[0]] + tail
  }

  function SortedUnique(xs: seq<real>): (r: seq<real>)
    ensures StrictlyIncreasing(r)
    ensures forall y :: y in r <==> y in xs
    ensures |r| <= |xs|
  {
    if xs == [] then []
    else
      var r := InsertUnique(xs[0], SortedUnique(xs[1..]));
      assert |r| <= |xs| by { InsertUniqueLength(xs[0], SortedUnique(xs[1..])); }
      r
  }

  lemma {:induction false} InsertUniqueLength(x: real, s: seq<real>)
    requires StrictlyIncreasing(s)
    ensures |InsertUnique(x, s)| <= |s| + 1
  {
    if s != [] && x > s[0] {
      InsertUniqueLength(x, s[1..]);
    }
  }

  /** Σ_i g(s[i]). */
  function SumOf<T(!new)>(s: seq<T>, g: T -> real): real
  {
    if s == [] then 0.0 else g(s[0]) + SumOf(s[1..], g)
  }

  lemma {:induction false} SumOfAppend<T(!new)>(a: seq<T>, b: seq<T>, g: T -> real)
    ensures SumOf(a + b, g) == SumOf(a, g) + SumOf(b, g)
  {
    if a == [] {
      assert a + b == b;
    } else {
      assert (a + b)[0] == a[0] && (a + b)[1..] == a[1..] + b;
      SumOfAppend(a[1..], b, g);
    }
  }

  /** A sum does not depend on the order of its terms. */
  lemma {:induction false} SumOfPermutation<T(!new)>(s: seq<T>, t: seq<T>, g: T -> real)
    requires multiset(s) == multiset(t)
    ensures SumOf(s, g) == SumOf(t, g)
    decreases |s|
  {
    if s == [] {
      assert |t| == |multiset(t)| == 0;
    } else {
      assert s[0] in multiset(t);
      var i :| 0 <= i < |t| && t[i] == s[0];
      assert s == [s[0]] + s[1..];
      assert multiset(s[1..]) == multiset(s) - multiset{s[0]};
      RemoveAt(t, i);
      SumOfPermutation(s[1..], t[..i] + t[i + 1..], g);
      SumRemoveAt(t, i, g);
    }
  }

  /** Dropping position `i` removes one occurrence of `t[i]`. */
  lemma RemoveAt<T>(t: seq<T>, i: nat)
    requires i < |t|
    ensures multiset(t[..i] + t[i + 1..]) == multiset(t) - multiset{t[i]}
  {
    assert t == t[..i] + [t[i]] + t[i + 1..];
  }

  /** The sum is the dropped term plus the sum of the rest. */
  lemma SumRemoveAt<T(!new)>(t: seq<T>, i: nat, g: T -> real)
    requires i < |t|
    ensures SumOf(t, g) == g(t[i]) + SumOf(t[..i] + t[i + 1..], g)
  {
    assert t == t[..i] + ([t[i]] + t[i + 1..]);
    SumOfAppend(t[..i], [t[i]] + t[i + 1..], g);
    SumOfAppend([t[i]], t[i + 1..], g);
    SumOfAppend(t[..i], t[i + 1..], g);
    assert SumOf([t[i]], g) == g(t[i]) by {
      assert [t[i]][1..] == [];
    }
  }

  /** If every row before position `k` satisfies `p`, at least `k` rows survive. */
  lemma FilterPrefixLowerBound<T(!new)>(s: seq<T>, k: nat, p: T -> bool)
    requires k <= |s|
    requires forall i :: 0 <= i < k ==> p(s[i])
    ensures |Filter(s, p)| >= k
  {
    assert s == s[..k] + s[k..];
    FilterAppend(s[..k], s[k..], p);
    assert Filter(s[..k], p) == s[..k] by { FilterAll(s[..k], p); }
  }

  function Id(x: real): real { x }

  /** Σ_i xs[i]. */
  function Sum(xs: seq<real>): real { SumOf(xs, Id) }

  /** The elementwise sum of two sequences of equal length. */
  function Plus(a: seq<real>, b: seq<real>): (c: seq<real>)
    requires |a| == |b|
    ensures |c| == |a| && forall i :: 0 <= i < |a| ==> c[i] == a[i] + b[i]
  {
    seq(|a|, i requires 0 <= i < |a| => a[i] + b[i])
  }

  lemma {:induction false} SumPlus(a: seq<real>, b: seq<real>)
    requires |a| == |b|
    ensures Sum(Plus(a, b)) == Sum(a) + Sum(b)
  {
    if a != [] {
      assert Plus(a, b)[1..] == Plus(a[1..], b[1..]);
      SumPlus(a[1..], b[1..]);
    }
  }

  /** Every entry multiplied by `c`. */
  function Scale(c: real, w: seq<real>): (r: seq<real>)
    ensures |r| == |w| && forall j :: 0 <= j < |w| ==> r[j] == c * w[j]
  {
    if w == [] then [] else [c * w[0]] + Scale(c, w[1..])
  }

  lemma {:induction false} SumScale(c: real, xs: seq<real>)
    ensures Sum(Scale(c, xs)) == c * Sum(xs)
  {
    if xs != [] {
      assert Scale(c, xs)[1..] == Scale(c, xs[1..]);
      SumScale(c, xs[1..]);
      assert c * (xs[0] + Sum(xs[1..])) == c * xs[0] + c * Sum(xs[1..]);
    }
  }

  function Constant(n: nat, x: real): (r: seq<real>)
    ensures |r| == n && forall i :: 0 <= i < n ==> r[i] == x
  {
    seq(n, i => x)
  }

  lemma {:induction false} SumConstant(n: nat, x: real)
    ensures Sum(Constant(n, x)) == n as real * x
  {
    if n > 0 {
      assert Constant(n, x)[1..] == Constant(n - 1, x);
      SumConstant(n - 1, x);
    }
  }

  /** Equally long columns of reals. */
  ghost predicate Columns(cols: seq<seq<real>>, n: nat)
  {
    forall j :: 0 <= j < |cols| ==> |cols[j]| == n
  }

  /** The total of every column. */
  function Totals(cols: seq<seq<real>>): (r: seq<real>)
    ensures |r| == |cols| && forall j :: 0 <= j < |cols| ==> r[j] == Sum(cols[j])
  {
    seq(|cols|, j requires 0 <= j < |cols| => Sum(cols[j]))
  }

  /** Entry `i` of every column. */
  function Slice(cols: seq<seq<real>>, n: nat, i: nat): (r: seq<real>)
    requires Columns(cols, n) && i < n
    ensures |r| == |cols| && forall j :: 0 <= j < |cols| ==> r[j] == cols[j][i]
  {
    seq(|cols|, j requires 0 <= j < |cols| => cols[j][i])
  }

  /** The total across the columns at every position. */
  function Across(cols: seq<seq<real>>, n: nat): (r: seq<real>)
    requires Columns(cols, n)
    ensures |r| == n && forall i :: 0 <= i < n ==> r[i] == Sum(Slice(cols, n, i))
  {
    seq(n, i requires 0 <= i < n => Sum(Slice(cols, n, i)))
  }

  /** Summing column by column or position by position gives the same grand total. */
  lemma {:induction false} SumTotals(cols: seq<seq<real>>, n: nat)
    requires Columns(cols, n)
    ensures Sum(Totals(cols)) == Sum(Across(cols, n))
  {
    if cols == [] {
      assert Across(cols, n) == Constant(n, 0.0);
      SumConstant(n, 0.0);
    } else {
      var rest := cols[1..];
      assert Totals(cols)[1..] == Totals(rest);
      SumTotals(rest, n);
      forall i | 0 <= i < n ensures Across(cols, n)[i] == Plus(cols[0], Across(rest, n))[i] {
        assert Slice(cols, n, i)[1..] == Slice(rest, n, i);
      }
      assert Across(cols, n) == Plus(cols[0], Across(rest, n));
      SumPlus(cols[0], Across(rest, n));
    }
  }

  /** Dividing every term by `n` divides the sum by `n`. */
  lemma {:induction false} SumQuotients(r: seq<real>, xs: seq<real>, n: real)
    requires n != 0.0 && |r| == |xs|
    requires forall j :: 0 <= j < |r| ==> r[j] == xs[j] / n
    ensures Sum(r) == Sum(xs) / n
  {
    if r != [] {
      SumQuotients(r[1..], xs[1..], n);
      assert Sum(r) == xs[0] / n + Sum(xs[1..]) / n;
      assert (xs[0] + Sum(xs[1..])) / n == xs[0] / n + Sum(xs[1..]) / n;
    }
  }
}
