/** Numeric helpers the metric pipeline shares: sums and means of score lists,
    extremes, clamping into a range, one-decimal rounding, sorting, the
    statistical median, and the ascending order of a set of week numbers. */
module Stats {

  // ---------------------------------------------------------------- sums and means

  /** Sum of a score list (Python's `sum`). */
  function Sum(s: seq<real>): real
  {
    if |s| == 0 then 0.0 else Sum(s[..|s| - 1]) + s[|s| - 1]
  }

  /** Arithmetic mean (Python's `statistics.mean`, and `sum(xs) / len(xs)`). */
  function Mean(s: seq<real>): real
    requires |s| > 0
  {
    Sum(s) / |s| as real
  }

  lemma {:induction false} SumAppend(a: seq<real>, b: seq<real>)
    ensures Sum(a + b) == Sum(a) + Sum(b)
    decreases |b|
  {
    if |b| == 0 {
      assert a + b == a;
    } else {
      assert (a + b)[..|a + b| - 1] == a + b[..|b| - 1];
      SumAppend(a, b[..|b| - 1]);
    }
  }

  /** Every element in [lo, hi] puts the sum between |s|*lo and |s|*hi. */
  lemma {:induction false} SumBounds(s: seq<real>, lo: real, hi: real)
    requires forall i :: 0 <= i < |s| ==> lo <= s[i] <= hi
    ensures |s| as real * lo <= Sum(s) <= |s| as real * hi
  {
    if |s| > 0 {
      SumBounds(s[..|s| - 1], lo, hi);
      assert (|s| - 1) as real * lo + lo == |s| as real * lo;
      assert (|s| - 1) as real * hi + hi == |s| as real * hi;
    }
  }

  /** Largest element (Python's `max`). */
  function MaxOf(s: seq<real>): real
    requires |s| > 0
  {
    if |s| == 1 then s[0]
    else
      var rest := MaxOf(s[..|s| - 1]);
      if s[|s| - 1] > rest then s[|s| - 1] else rest
  }

  /** Smallest element (Python's `min`). */
  function MinOf(s: seq<real>): real
    requires |s| > 0
  {
    if |s| == 1 then s[0]
    else
      var rest := MinOf(s[..|s| - 1]);
      if s[|s| - 1] < rest then s[|s| - 1] else rest
  }

  /** The maximum is an element and bounds every element from above. */
  lemma {:induction false} MaxOfSpec(s: seq<real>)
    requires |s| > 0
    ensures MaxOf(s) in s
    ensures forall i :: 0 <= i < |s| ==> s[i] <= MaxOf(s)
  {
    if |s| > 1 {
      MaxOfSpec(s[..|s| - 1]);
    }
  }

  /** The minimum is an element and bounds every element from below. */
  lemma {:induction false} MinOfSpec(s: seq<real>)
    requires |s| > 0
    ensures MinOf(s) in s
    ensures forall i :: 0 <= i < |s| ==> MinOf(s) <= s[i]
  {
    if |s| > 1 {
      MinOfSpec(s[..|s| - 1]);
    }
  }

  /** A mean of values that all lie in [lo, hi] lies in [lo, hi]. */
  lemma MeanBounds(s: seq<real>, lo: real, hi: real)
    requires |s| > 0
    requires forall i :: 0 <= i < |s| ==> lo <= s[i] <= hi
    ensures lo <= Mean(s) <= hi
  {
    SumBounds(s, lo, hi);
    DivideBounds(lo, Sum(s), hi, |s| as real);
  }

  /** The mean lies between the minimum and the maximum. */
  lemma MeanBetween(s: seq<real>)
    requires |s| > 0
    ensures MinOf(s) <= Mean(s) <= MaxOf(s)
  {
    MinOfSpec(s);
    MaxOfSpec(s);
    MeanBounds(s, MinOf(s), MaxOf(s));
  }

  lemma DivideBounds(lo: real, x: real, hi: real, n: real)
    requires n > 0.0
    requires n * lo <= x <= n * hi
    ensures lo <= x / n <= hi
  {
    var q := x / n;
    assert x == n * q;
    assert n * (q - lo) >= 0.0;
    NonNegativeFactor(n, q - lo);
    assert n * (hi - q) >= 0.0;
    NonNegativeFactor(n, hi - q);
  }

  lemma NonNegativeFactor(n: real, d: real)
    requires n > 0.0 && n * d >= 0.0
    ensures d >= 0.0
  {
  }

  // ---------------------------------------------------------------- clamping

  /** Python's `max(lo, min(hi, x))`. */
  function Clamp(lo: real, hi: real, x: real): (r: real)
    requires lo <= hi
    ensures lo <= r <= hi
    ensures lo <= x <= hi ==> r == x
    ensures x < lo ==> r == lo
    ensures hi < x ==> r == hi
  {
    var upper := if hi < x then hi else x;
    if upper < lo then lo else upper
  }

  // ---------------------------------------------------------------- rounding

  /** x has at most one decimal. */
  predicate OneDecimal(x: real)
  {
    (x * 10.0).Floor as real == x * 10.0
  }

  /** Nearest integer, halves going to the even neighbour (Python's rounding rule). */
  function RoundHalfEven(y: real): (n: int)
    ensures -0.5 <= n as real - y <= 0.5
  {
    var f := y.Floor;
    var d := y - f as real;
    if d < 0.5 then f
    else if d > 0.5 then f + 1
    else if f % 2 == 0 then f
    else f + 1
  }

  /** Python's `round(x, 1)`: the nearest multiple of 0.1, ties to the even multiple.
      Exact rational arithmetic stands in for binary floating point. */
  function Round1(x: real): (r: real)
    ensures -0.05 <= r - x <= 0.05
    ensures OneDecimal(r)
  {
    var n := RoundHalfEven(x * 10.0);
    assert n as real / 10.0 * 10.0 == n as real;
    n as real / 10.0
  }

  lemma RoundHalfEvenMonotone(a: real, b: real)
    requires a <= b
    ensures RoundHalfEven(a) <= RoundHalfEven(b)
  {
    var fa, fb := a.Floor, b.Floor;
    if fa == fb {
      var da, db := a - fa as real, b - fb as real;
      assert da <= db;
    }
  }

  /** Rounding never reverses the order of two values. */
  lemma Round1Monotone(a: real, b: real)
    requires a <= b
    ensures Round1(a) <= Round1(b)
  {
    RoundHalfEvenMonotone(a * 10.0, b * 10.0);
  }

  /** A value that already has one decimal is left as it is. */
  lemma Round1Exact(n: int)
    ensures Round1(n as real / 10.0) == n as real / 10.0
  {
    var y := n as real / 10.0 * 10.0;
    assert y == n as real;
    assert y.Floor == n;
  }

  /** A value with at most one decimal is a fixed point of the rounding. */
  lemma Round1Fixed(x: real)
    requires OneDecimal(x)
    ensures Round1(x) == x
  {
    var n := (x * 10.0).Floor;
    Round1Exact(n);
    assert x == n as real / 10.0;
  }

  /** Rounding to one decimal keeps the mean of one-decimal values within their range. */
  lemma Round1Between(lo: real, x: real, hi: real)
    requires OneDecimal(lo)
    requires OneDecimal(hi)
    requires lo <= x <= hi
    ensures lo <= Round1(x) <= hi
  {
    Round1Fixed(lo);
    Round1Fixed(hi);
    Round1Monotone(lo, x);
    Round1Monotone(x, hi);
  }

  /** Values with at most one decimal have their rounded mean between their
      minimum and maximum. */
  lemma Round1MeanBetween(s: seq<real>)
    requires |s| > 0
    requires forall i :: 0 <= i < |s| ==> OneDecimal(s[i])
    ensures MinOf(s) <= Round1(Mean(s)) <= MaxOf(s)
  {
    var lo, hi := MinOf(s), MaxOf(s);
    MinOfSpec(s);
    MaxOfSpec(s);
    var a :| 0 <= a < |s| && s[a] == lo;
    var b :| 0 <= b < |s| && s[b] == hi;
    MeanBetween(s);
    Round1Between(lo, Mean(s), hi);
  }

  // ---------------------------------------------------------------- sorting

  ghost predicate Sorted(s: seq<real>)
  {
    forall i, j :: 0 <= i < j < |s| ==> s[i] <= s[j]
  }

  /** Insertion of x into a sorted list, before the first element not below it. */
  function Insert(x: real, t: seq<real>): seq<real>
  {
    if |t| == 0 then [x]
    else if x <= t[0] then [x] + t
    else [t[0]] + Insert(x, t[1..])
  }

  /** Insertion adds exactly x. */
  lemma {:induction false} InsertCount(x: real, t: seq<real>)
    ensures multiset(Insert(x, t)) == multiset(t) + multiset{x}
    ensures |Insert(x, t)| == |t| + 1
  {
    if |t| > 0 && x > t[0] {
      InsertCount(x, t[1..]);
      assert t == [t[0]] + t[1..];
    }
  }

  /** Insertion keeps a list sorted. */
  lemma {:induction false} InsertSorted(x: real, t: seq<real>)
    requires Sorted(t)
    ensures Sorted(Insert(x, t))
  {
    if |t| > 0 && x > t[0] {
      var rest := Insert(x, t[1..]);
      InsertSorted(x, t[1..]);
      InsertAbove(x, t[1..], t[0]);
      var r := [t[0]] + rest;
      forall i, j | 0 <= i < j < |r| ensures r[i] <= r[j] {
        if i > 0 {
          assert r[i] == rest[i - 1] && r[j] == rest[j - 1];
        } else {
          assert r[j] == rest[j - 1];
        }
      }
    }
  }

  /** Inserting a value no smaller than `lo` into a list no smaller than `lo`
      gives a list no smaller than `lo`. */
  lemma {:induction false} InsertAbove(x: real, t: seq<real>, lo: real)
    requires lo <= x
    requires forall i :: 0 <= i < |t| ==> lo <= t[i]
    ensures forall k :: 0 <= k < |Insert(x, t)| ==> lo <= Insert(x, t)[k]
  {
    if |t| > 0 && x > t[0] {
      InsertAbove(x, t[1..], lo);
      var rest := Insert(x, t[1..]);
      assert Insert(x, t) == [t[0]] + rest;
    }
  }

  /** Python's `sorted` on a score list: insertion sort. */
  function Sort(s: seq<real>): seq<real>
  {
    if |s| == 0 then [] else Insert(s[|s| - 1], Sort(s[..|s| - 1]))
  }

  /** Sorting yields a sorted permutation of its input. */
  lemma {:induction false} SortSpec(s: seq<real>)
    ensures Sorted(Sort(s))
    ensures multiset(Sort(s)) == multiset(s)
    ensures |Sort(s)| == |s|
  {
    if |s| > 0 {
      SortSpec(s[..|s| - 1]);
      InsertCount(s[|s| - 1], Sort(s[..|s| - 1]));
      InsertSorted(s[|s| - 1], Sort(s[..|s| - 1]));
      assert s == s[..|s| - 1] + [s[|s| - 1]];
    }
  }

  /** Two sorted lists with the same elements are the same list. */
  lemma {:induction false} SortedUnique(a: seq<real>, b: seq<real>)
    requires Sorted(a) && Sorted(b)
    requires multiset(a) == multiset(b)
    ensures a == b
    decreases |a|
  {
    assert |a| == |multiset(a)| == |multiset(b)| == |b|;
    if |a| > 0 {
      SortedHeads(a, b);
      SameTails(a, b);
      SortedUnique(a[1..], b[1..]);
      assert a == [a[0]] + a[1..];
      assert b == [b[0]] + b[1..];
    }
  }

  /** Two sorted lists with the same elements start with the same element. */
  lemma SortedHeads(a: seq<real>, b: seq<real>)
    requires Sorted(a) && Sorted(b)
    requires multiset(a) == multiset(b) && |a| > 0 && |b| > 0
    ensures a[0] == b[0]
  {
    assert a[0] in multiset(b);
    assert b[0] in multiset(a);
    var i :| 0 <= i < |b| && b[i] == a[0];
    var j :| 0 <= j < |a| && a[j] == b[0];
    assert a[0] <= a[j] && b[0] <= b[i];
  }

  /** Removing equal heads leaves the same elements. */
  lemma SameTails(a: seq<real>, b: seq<real>)
    requires multiset(a) == multiset(b) && |a| > 0 && |b| > 0 && a[0] == b[0]
    ensures multiset(a[1..]) == multiset(b[1..])
  {
    assert a == [a[0]] + a[1..];
    assert b == [b[0]] + b[1..];
    assert multiset(a[1..]) == multiset(a) - multiset{a[0]};
    assert multiset(b[1..]) == multiset(b) - multiset{b[0]};
  }

  /** Sorting depends only on which values are present, not on their order. */
  lemma SortPermutation(a: seq<real>, b: seq<real>)
    requires multiset(a) == multiset(b)
    ensures Sort(a) == Sort(b)
  {
    SortSpec(a);
    SortSpec(b);
    SortedUnique(Sort(a), Sort(b));
  }

  // ---------------------------------------------------------------- median

  /** Number of elements strictly below m. */
  function CountBelow(s: seq<real>, m: real): (c: nat)
    ensures c <= |s|
  {
    if |s| == 0 then 0 else (if s[0] < m then 1 else 0) + CountBelow(s[1..], m)
  }

  lemma {:induction false} CountBelowAppend(a: seq<real>, b: seq<real>, m: real)
    ensures CountBelow(a + b, m) == CountBelow(a, m) + CountBelow(b, m)
  {
    if |a| == 0 {
      assert a + b == b;
    } else {
      assert (a + b)[1..] == a[1..] + b;
      CountBelowAppend(a[1..], b, m);
    }
  }

  lemma {:induction false} CountBelowInsert(x: real, t: seq<real>, m: real)
    requires Sorted(t)
    ensures CountBelow(Insert(x, t), m) == CountBelow(t, m) + (if x < m then 1 else 0)
  {
    if |t| > 0 && t[0] < x {
      CountBelowInsert(x, t[1..], m);
      assert ([t[0]] + Insert(x, t[1..]))[1..] == Insert(x, t[1..]);
    } else if |t| > 0 {
      assert ([x] + t)[1..] == t;
    }
  }

  /** Sorting keeps the number of elements below any threshold. */
  lemma {:induction false} CountBelowSort(s: seq<real>, m: real)
    ensures CountBelow(Sort(s), m) == CountBelow(s, m)
  {
    if |s| > 0 {
      var init, last := s[..|s| - 1], s[|s| - 1];
      CountBelowSort(init, m);
      SortSpec(init);
      CountBelowInsert(last, Sort(init), m);
      assert s == init + [last];
      CountBelowAppend(init, [last], m);
      assert CountBelow([last], m) == if last < m then 1 else 0 by {
        assert [last][1..] == [];
      }
    }
  }

  /** If nothing from index k on lies below m, at most k elements do. */
  lemma {:induction false} CountBelowAtMost(t: seq<real>, k: nat, m: real)
    requires k <= |t|
    requires forall j :: k <= j < |t| ==> m <= t[j]
    ensures CountBelow(t, m) <= k
  {
    if |t| > 0 {
      if k == 0 {
        CountBelowAtMost(t[1..], 0, m);
      } else {
        CountBelowAtMost(t[1..], k - 1, m);
      }
    }
  }

  /** Python's `statistics.median`: the middle element of the sorted list, or the
      mean of the two middle elements when the length is even. */
  function Median(s: seq<real>): real
    requires |s| > 0
  {
    SortSpec(s);
    var t := Sort(s);
    var n := |t|;
    if n % 2 == 1 then t[n / 2] else (t[n / 2 - 1] + t[n / 2]) / 2.0
  }

  /** At most half of the values lie strictly below the median. */
  lemma MedianSplit(s: seq<real>)
    requires |s| > 0
    ensures 2 * CountBelow(s, Median(s)) <= |s|
  {
    SortSpec(s);
    var t := Sort(s);
    var n := |t|;
    var med := Median(s);
    assert med <= t[n / 2] by {
      if n % 2 == 0 {
        assert t[n / 2 - 1] <= t[n / 2];
      }
    }
    CountBelowSort(s, med);
    MedianUpperHalf(t, n / 2, med);
    CountBelowAtMost(t, n / 2, med);
  }

  /** In a sorted list, a value at most t[k] is at most everything from k on. */
  lemma MedianUpperHalf(t: seq<real>, k: nat, m: real)
    requires Sorted(t) && k < |t| && m <= t[k]
    ensures forall j :: k <= j < |t| ==> m <= t[j]
  {
  }

  /** `sorted(xs)[len(xs) // 2]`: the upper median. */
  function UpperMedian(s: seq<real>): (m: real)
    requires |s| > 0
    ensures m in s
  {
    SortSpec(s);
    var t := Sort(s);
    assert t[|t| / 2] in multiset(t);
    t[|t| / 2]
  }

  /** The upper median depends only on which values are present. */
  lemma UpperMedianPermutation(a: seq<real>, b: seq<real>)
    requires |a| > 0
    requires multiset(a) == multiset(b)
    ensures |b| > 0 && UpperMedian(a) == UpperMedian(b)
  {
    assert |a| == |multiset(a)| == |multiset(b)| == |b|;
    SortPermutation(a, b);
    SortSpec(a);
  }

  // ---------------------------------------------------------------- ordered week numbers

  lemma Member(s: set<int>) returns (y: int)
    requires s != {}
    ensures y in s
  {
    if forall z :: z !in s { assert false; }
    y :| y in s;
  }

  lemma {:induction false} Least(s: set<int>) returns (m: int)
    requires s != {}
    ensures m in s && forall x :: x in s ==> m <= x
    decreases |s|
  {
    var y := Member(s);
    var rest := s - {y};
    if rest == {} {
      m := y;
      forall x | x in s ensures y <= x {
        assert x !in rest;
      }
    } else {
      var r := Least(rest);
      m := if y < r then y else r;
      forall x | x in s ensures m <= x {
        if x != y { assert x in rest; }
      }
    }
  }

  lemma LeastExists(s: set<int>)
    requires s != {}
    ensures exists m :: m in s && forall x :: x in s ==> m <= x
  {
    var m := Least(s);
  }

  /** The week numbers of a series in ascending order (Python's `sorted(d.keys())`). */
  function SortedKeys(s: set<int>): seq<int>
    decreases |s|
  {
    if s == {} then []
    else
      LeastExists(s);
      var m :| m in s && forall x :: x in s ==> m <= x;
      [m] + SortedKeys(s - {m})
  }

  /** The sorted keys list every element once, in strictly increasing order. */
  lemma {:induction false} SortedKeysSpec(s: set<int>)
    ensures |SortedKeys(s)| == |s|
    ensures forall x :: x in SortedKeys(s) <==> x in s
    ensures forall i, j :: 0 <= i < j < |SortedKeys(s)| ==> SortedKeys(s)[i] < SortedKeys(s)[j]
    decreases |s|
  {
    if s != {} {
      var m := Least(s);
      assert SortedKeys(s) == [m] + SortedKeys(s - {m});
      SortedKeysSpec(s - {m});
      PrependLeast(s, m, SortedKeys(s - {m}));
    }
  }

  lemma PrependLeast(s: set<int>, m: int, rest: seq<int>)
    requires m in s && forall x :: x in s ==> m <= x
    requires |rest| == |s - {m}|
    requires forall x :: x in rest <==> x in s - {m}
    requires forall i, j :: 0 <= i < j < |rest| ==> rest[i] < rest[j]
    ensures |[m] + rest| == |s|
    ensures forall x :: x in [m] + rest <==> x in s
    ensures forall i, j :: 0 <= i < j < |[m] + rest| ==> ([m] + rest)[i] < ([m] + rest)[j]
  {
    var r := [m] + rest;
    assert |s - {m}| == |s| - 1;
    forall x ensures x in r <==> x in s {
      if x == m { assert r[0] == m; }
      else if x in s { assert x in rest; }
    }
    forall i, j | 0 <= i < j < |r| ensures r[i] < r[j] {
      if i == 0 { assert r[j] in rest; assert r[j] in s - {m}; }
      else { assert r[i] == rest[i - 1] && r[j] == rest[j - 1]; }
    }
  }

  // ---------------------------------------------------------------- sums over dictionary values

  /** The sum of a dictionary's values (their order does not matter to a sum). */
  ghost function SumValues<K>(m: map<K, real>): real
    decreases |m.Keys|
  {
    if m.Keys == {} then 0.0 else var k :| k in m.Keys; m[k] + SumValues(m - {k})
  }

  lemma SumValuesPick<K>(m: map<K, real>) returns (j: K)
    requires m.Keys != {}
    ensures j in m && SumValues(m) == m[j] + SumValues(m - {j})
  {
    j :| j in m.Keys && SumValues(m) == m[j] + SumValues(m - {j});
  }

  /** Any key can be taken out of the sum first. */
  lemma SumValuesRemove<K>(m: map<K, real>, k: K)
    requires k in m
    ensures SumValues(m) == m[k] + SumValues(m - {k})
    decreases |m.Keys|
  {
    var j := SumValuesPick(m);
    if j != k {
      var a := m - {j};
      var b := m - {k};
      assert k in a && j in b;
      assert |a.Keys| < |m.Keys| by { assert a.Keys == m.Keys - {j}; }
      assert |b.Keys| < |m.Keys| by { assert b.Keys == m.Keys - {k}; }
      SumValuesRemove(a, k);
      SumValuesRemove(b, j);
      assert a - {k} == b - {j};
    }
  }

  /** Storing a new value under a present key changes the sum by the difference. */
  lemma SumValuesUpdate<K>(m: map<K, real>, k: K, v: real)
    requires k in m
    ensures SumValues(m[k := v]) == SumValues(m) - m[k] + v
  {
    SumValuesRemove(m, k);
    SumValuesRemove(m[k := v], k);
    assert m[k := v] - {k} == m - {k};
  }

  /** Adding a new key adds its value to the sum. */
  lemma SumValuesInsert<K>(m: map<K, real>, k: K, v: real)
    requires k !in m
    ensures SumValues(m[k := v]) == SumValues(m) + v
  {
    SumValuesRemove(m[k := v], k);
    assert m[k := v] - {k} == m;
  }
}
