/** The statistics behind drift detection, over reals, and the order facts they rest on. */
module DriftStats {

  // ----- sorting

  ghost predicate Ordered(s: seq<real>) {
    forall i, j :: 0 <= i < j < |s| ==> s[i] <= s[j]
  }

  function Insert(x: real, s: seq<real>): seq<real> {
    if s == [] || x <= s[0] then [x] + s else [s[0]] + Insert(x, s[1..])
  }

  function Sort(s: seq<real>): seq<real> {
    if s == [] then [] else Insert(s[|s| - 1], Sort(s[..|s| - 1]))
  }

  lemma {:induction false} InsertAdds(x: real, s: seq<real>)
    ensures multiset(Insert(x, s)) == multiset(s) + multiset{x} && |Insert(x, s)| == |s| + 1
  {
    if s != [] && x > s[0] {
      InsertAdds(x, s[1..]);
      assert s == [s[0]] + s[1..];
    }
  }

  lemma {:induction false} InsertKeepsOrder(x: real, s: seq<real>)
    requires Ordered(s)
    ensures Ordered(Insert(x, s))
  {
    hide Ordered;
    if s == [] || x <= s[0] {
      HeadOrdered(x, s);
    } else {
      TailOrdered(s);
      InsertKeepsOrder(x, s[1..]);
      InsertAdds(x, s[1..]);
      HeadSmallest(s);
      ConsOrdered(s[0], Insert(x, s[1..]), s[1..] + [x]);
    }
  }

  lemma HeadOrdered(x: real, s: seq<real>)
    requires Ordered(s) && (s == [] || x <= s[0])
    ensures Ordered([x] + s)
  {
  }

  lemma HeadSmallest(s: seq<real>)
    requires Ordered(s) && s != []
    ensures forall k :: 0 <= k < |s[1..]| ==> s[0] <= s[1..][k]
  {
  }

  lemma ConsOrdered(x: real, s: seq<real>, elements: seq<real>)
    requires Ordered(s) && multiset(s) == multiset(elements)
    requires forall k :: 0 <= k < |elements| ==> x <= elements[k]
    ensures Ordered([x] + s)
  {
    forall k | 0 <= k < |s| ensures x <= s[k] {
      assert s[k] in multiset(elements);
      assert s[k] in elements;
    }
  }

  lemma {:induction false} SortSorts(s: seq<real>)
    ensures Ordered(Sort(s)) && multiset(Sort(s)) == multiset(s) && |Sort(s)| == |s|
  {
    if s != [] {
      var n := |s| - 1;
      SortSorts(s[..n]);
      InsertKeepsOrder(s[n], Sort(s[..n]));
      InsertAdds(s[n], Sort(s[..n]));
      assert s == s[..n] + [s[n]];
    }
  }

  lemma SmallestFirst(a: seq<real>, x: real)
    requires Ordered(a) && x in multiset(a)
    ensures a != [] && a[0] <= x
  {
    assert x in a;
  }

  lemma TailElements(a: seq<real>)
    requires a != []
    ensures multiset(a[1..]) == multiset(a) - multiset{a[0]}
  {
    assert a == [a[0]] + a[1..];
  }

  lemma TailOrdered(a: seq<real>)
    requires Ordered(a) && a != []
    ensures Ordered(a[1..])
  {
  }

  lemma SameElementsSameLength<T>(a: seq<T>, b: seq<T>)
    requires multiset(a) == multiset(b)
    ensures |a| == |b|
  {
    assert |multiset(a)| == |a| && |multiset(b)| == |b|;
  }

  lemma SameHeadSameTail(a: seq<real>, b: seq<real>)
    requires a != [] && b != [] && a[0] == b[0] && a[1..] == b[1..]
    ensures a == b
  {
    assert a == [a[0]] + a[1..] && b == [b[0]] + b[1..];
  }

  lemma OrderedStep(a: seq<real>, b: seq<real>)
    requires Ordered(a) && Ordered(b) && multiset(a) == multiset(b) && a != [] && b != []
    ensures a[0] == b[0] && multiset(a[1..]) == multiset(b[1..])
  {
    hide Ordered;
    assert a[0] in multiset(a) && b[0] in multiset(b);
    SmallestFirst(a, b[0]);
    SmallestFirst(b, a[0]);
    TailElements(a);
    TailElements(b);
  }

  /** There is only one ordered arrangement, so which algorithm sorts does not matter. */
  lemma {:induction false} OrderedIsUnique(a: seq<real>, b: seq<real>)
    requires Ordered(a) && Ordered(b) && multiset(a) == multiset(b)
    ensures a == b
  {
    hide Ordered;
    SameElementsSameLength(a, b);
    if a != [] {
      TailOrdered(a);
      TailOrdered(b);
      OrderedStep(a, b);
      OrderedIsUnique(a[1..], b[1..]);
      SameHeadSameTail(a, b);
    }
  }

  /** Sorting does not depend on the order of the samples. */
  lemma SortForgetsOrder(s: seq<real>, t: seq<real>)
    requires multiset(s) == multiset(t)
    ensures Sort(s) == Sort(t)
  {
    SortSorts(s);
    SortSorts(t);
    OrderedIsUnique(Sort(s), Sort(t));
  }

  // ----- domination

  ghost predicate Below(s: seq<real>, t: seq<real>) {
    |s| == |t| && forall i :: 0 <= i < |s| ==> s[i] <= t[i]
  }

  lemma BelowCons(x: real, s: seq<real>, y: real, t: seq<real>)
    requires x <= y && Below(s, t)
    ensures Below([x] + s, [y] + t)
  {
  }

  lemma InsertFirst(s: seq<real>)
    requires Ordered(s) && s != []
    ensures Insert(s[0], s[1..]) == s
  {
    assert s == [s[0]] + s[1..];
  }

  lemma BelowTail(s: seq<real>, t: seq<real>)
    requires Below(s, t) && s != []
    ensures t != [] && s[0] <= t[0] && Below(s[1..], t[1..])
  {
  }

  lemma {:induction false} InsertDominates(x: real, s: seq<real>, y: real, t: seq<real>)
    requires x <= y && Below(s, t) && Ordered(s) && Ordered(t)
    ensures Below(Insert(x, s), Insert(y, t))
    decreases |s|
  {
    hide Ordered;
    if s == [] {
      BelowCons(x, s, y, t);
    } else {
      hide Below;
      BelowTail(s, t);
      TailOrdered(s);
      TailOrdered(t);
      InsertFirst(s);
      InsertFirst(t);
      var s', t' := s[1..], t[1..];
      if x <= s[0] && y <= t[0] {
        BelowCons(x, s, y, t);
      } else if x <= s[0] {
        InsertDominates(s[0], s', y, t');
        BelowCons(x, s, t[0], Insert(y, t'));
      } else if y <= t[0] {
        InsertDominates(x, s', t[0], t');
        BelowCons(s[0], Insert(x, s'), y, t);
      } else {
        InsertDominates(x, s', y, t');
        BelowCons(s[0], Insert(x, s'), t[0], Insert(y, t'));
      }
    }
  }

  /** Position by position no smaller stays rank by rank no smaller. */
  lemma {:induction false} SortDominates(s: seq<real>, t: seq<real>)
    requires Below(s, t)
    ensures Below(Sort(s), Sort(t))
  {
    if s != [] {
      var n := |s| - 1;
      SortDominates(s[..n], t[..n]);
      SortSorts(s[..n]);
      SortSorts(t[..n]);
      InsertDominates(s[n], Sort(s[..n]), t[n], Sort(t[..n]));
    }
  }

  // ----- median and percentile

  function Median(values: seq<real>): real
    requires values != []
  {
    SortSorts(values);
    var sorted := Sort(values);
    var n := |sorted|;
    if n % 2 == 0 then (sorted[n / 2 - 1] + sorted[n / 2]) / 2.0 else sorted[n / 2]
  }

  /** Conversion to an integer drops the fraction, towards zero. */
  function Trunc(x: real): int {
    if x >= 0.0 then x.Floor else -((-x).Floor)
  }

  function Blend(a: real, b: real, weight: real): real {
    a * (1.0 - weight) + b * weight
  }

  /** The value at a fractional index of samples already in order. */
  function ValueAt(sorted: seq<real>, index: real): real
    requires sorted != []
  {
    var n := |sorted|;
    var lower := Trunc(index);
    if lower + 1 >= n then sorted[n - 1]
    else if lower < 0 then sorted[0]
    else Blend(sorted[lower], sorted[lower + 1], index - lower as real)
  }

  function Index(n: nat, p: real): real {
    p * (n - 1) as real
  }

  function Percentile(values: seq<real>, p: real): real
    requires values != []
  {
    SortSorts(values);
    ValueAt(Sort(values), Index(|values|, p))
  }

  lemma ProductNonNegative(x: real, y: real)
    requires x >= 0.0 && y >= 0.0
    ensures x * y >= 0.0
  {
  }

  lemma BlendBetween(a: real, b: real, w: real)
    requires a <= b && 0.0 <= w <= 1.0
    ensures a <= Blend(a, b, w) <= b
  {
    ProductNonNegative(b - a, w);
    ProductNonNegative(b - a, 1.0 - w);
    assert Blend(a, b, w) == a + (b - a) * w == b - (b - a) * (1.0 - w);
  }

  lemma BlendMonotone(a: real, b: real, v: real, w: real)
    requires a <= b && v <= w
    ensures Blend(a, b, v) <= Blend(a, b, w)
  {
    ProductNonNegative(b - a, w - v);
    assert Blend(a, b, w) == Blend(a, b, v) + (b - a) * (w - v);
  }

  lemma BlendDominates(a: real, b: real, c: real, d: real, w: real)
    requires a <= c && b <= d && 0.0 <= w <= 1.0
    ensures Blend(a, b, w) <= Blend(c, d, w)
  {
    ProductNonNegative(c - a, 1.0 - w);
    ProductNonNegative(d - b, w);
    assert Blend(c, d, w) == Blend(a, b, w) + (c - a) * (1.0 - w) + (d - b) * w;
  }

  lemma TruncOfNonNegative(x: real)
    requires x >= 0.0
    ensures 0 <= Trunc(x) && Trunc(x) as real <= x < (Trunc(x) + 1) as real
  {
  }

  lemma TruncIsMonotone(x: real, y: real)
    requires 0.0 <= x <= y
    ensures Trunc(x) <= Trunc(y)
  {
  }

  lemma ValueAtMonotone(t: seq<real>, i: real, j: real)
    requires t != [] && Ordered(t) && 0.0 <= i <= j
    ensures ValueAt(t, i) <= ValueAt(t, j)
  {
    hide Blend, Trunc;
    TruncOfNonNegative(i);
    TruncOfNonNegative(j);
    TruncIsMonotone(i, j);
    var n, k, l := |t|, Trunc(i), Trunc(j);
    if k + 1 < n {
      BlendBetween(t[k], t[k + 1], i - k as real);
      if l + 1 < n {
        BlendBetween(t[l], t[l + 1], j - l as real);
        if k == l {
          BlendMonotone(t[k], t[k + 1], i - k as real, j - k as real);
        } else {
          assert t[k + 1] <= t[l];
        }
      }
    }
  }

  lemma ValueAtDominates(t: seq<real>, u: seq<real>, index: real)
    requires t != [] && Below(t, u) && index >= 0.0
    ensures ValueAt(t, index) <= ValueAt(u, index)
  {
    hide Blend, Trunc;
    TruncOfNonNegative(index);
    var l := Trunc(index);
    if l + 1 < |t| {
      BlendDominates(t[l], t[l + 1], u[l], u[l + 1], index - l as real);
    }
  }

  lemma ValueAtInRange(t: seq<real>, index: real)
    requires t != [] && Ordered(t)
    ensures ValueAt(t, index) <= t[|t| - 1]
    ensures ValueAt(t, index) < t[0] <==> (|t| > 1 && -1.0 < index < 0.0 && t[0] < t[1])
  {
    hide Blend;
    if index >= 0.0 {
      TruncOfNonNegative(index);
      var l := Trunc(index);
      if l + 1 < |t| {
        BlendBetween(t[l], t[l + 1], index - l as real);
      }
    } else if index > -1.0 {
      assert Trunc(index) == 0;
      if |t| > 1 {
        Extrapolates(t[0], t[1], index);
      }
    } else {
      assert Trunc(index) < 0;
    }
  }

  lemma ProductPositive(x: real, y: real)
    requires x > 0.0 && y > 0.0
    ensures x * y > 0.0
  {
  }

  lemma BlendSlope(a: real, b: real, w: real)
    ensures Blend(a, b, w) == a - (b - a) * -w
  {
  }

  /** A negative weight extrapolates below the smaller end. */
  lemma Extrapolates(a: real, b: real, w: real)
    requires a <= b && w < 0.0
    ensures Blend(a, b, w) <= a
    ensures Blend(a, b, w) < a <==> a < b
  {
    hide Blend;
    BlendSlope(a, b, w);
    if a < b {
      ProductPositive(b - a, -w);
    } else {
      assert (b - a) * -w == 0.0;
    }
  }

  lemma IndexMonotone(n: nat, p: real, q: real)
    requires n >= 1 && p <= q
    ensures Index(n, p) <= Index(n, q) && (p >= 0.0 ==> Index(n, p) >= 0.0)
  {
    ProductNonNegative(q - p, (n - 1) as real);
    assert Index(n, q) == Index(n, p) + (q - p) * (n - 1) as real;
  }

  /** The median is the percentile at one half, for either parity. */
  lemma MedianIsHalf(values: seq<real>)
    requires values != []
    ensures Percentile(values, 0.5) == Median(values)
  {
    hide Sort, Insert, Ordered;
    SortSorts(values);
    var n := |values|;
    TruncOfNonNegative(Index(n, 0.5));
    if n % 2 == 0 {
      assert n == 2 * (n / 2);
      assert Index(n, 0.5) == (n / 2 - 1) as real + 0.5;
    } else {
      assert n == 2 * (n / 2) + 1;
      assert Index(n, 0.5) == (n / 2) as real;
    }
  }

  /** Larger percentiles are no smaller. */
  lemma PercentileMonotone(values: seq<real>, p: real, q: real)
    requires values != [] && 0.0 <= p <= q
    ensures Percentile(values, p) <= Percentile(values, q)
  {
    hide Sort, Ordered, ValueAt, Index;
    SortSorts(values);
    IndexMonotone(|values|, p, q);
    ValueAtMonotone(Sort(values), Index(|values|, p), Index(|values|, q));
  }

  /** The extreme percentiles are the extreme samples. */
  lemma PercentileEnds(values: seq<real>)
    requires values != []
    ensures |Sort(values)| == |values|
    ensures Percentile(values, 0.0) == Sort(values)[0]
    ensures Percentile(values, 1.0) == Sort(values)[|values| - 1]
  {
    SortSorts(values);
    var n := |values|;
    assert Blend(Sort(values)[0], Sort(values)[if n > 1 then 1 else 0], 0.0) == Sort(values)[0];
  }

  /** A percentile never exceeds the largest sample. It falls below the smallest in one case:
      the index lies strictly between -1 and 0, which truncates to 0, and the two smallest
      samples differ; then the code extrapolates downwards. */
  lemma PercentileInRange(values: seq<real>, p: real)
    requires values != []
    ensures |Sort(values)| == |values|
    ensures Percentile(values, p) <= Sort(values)[|values| - 1]
    ensures Percentile(values, p) < Sort(values)[0] <==>
            (|values| > 1 && -1.0 < Index(|values|, p) < 0.0 && Sort(values)[0] < Sort(values)[1])
  {
    hide Sort, Ordered, ValueAt, Index;
    SortSorts(values);
    ValueAtInRange(Sort(values), Index(|values|, p));
  }

  /** Samples in another order have the same percentiles. */
  lemma PercentileForgetsOrder(s: seq<real>, t: seq<real>, p: real)
    requires s != [] && t != [] && multiset(s) == multiset(t)
    ensures Percentile(s, p) == Percentile(t, p)
  {
    assert |s| == |multiset(s)| == |multiset(t)| == |t|;
    SortForgetsOrder(s, t);
  }

  lemma PercentileDominates(s: seq<real>, t: seq<real>, p: real)
    requires s != [] && Below(s, t) && p >= 0.0
    ensures Percentile(s, p) <= Percentile(t, p)
  {
    hide Sort, Ordered, ValueAt, Index;
    SortSorts(s);
    SortSorts(t);
    SortDominates(s, t);
    IndexMonotone(|s|, 0.0, p);
    IndexMonotone(|s|, p, p);
    ValueAtDominates(Sort(s), Sort(t), Index(|s|, p));
  }

  // ----- how many samples lie on either side

  function CountAbove(values: seq<real>, v: real): nat {
    if values == [] then 0 else (if values[0] > v then 1 else 0) + CountAbove(values[1..], v)
  }

  function CountBelow(values: seq<real>, v: real): nat {
    if values == [] then 0 else (if values[0] < v then 1 else 0) + CountBelow(values[1..], v)
  }

  lemma {:induction false} CountConcat(s: seq<real>, t: seq<real>, v: real)
    ensures CountAbove(s + t, v) == CountAbove(s, v) + CountAbove(t, v)
    ensures CountBelow(s + t, v) == CountBelow(s, v) + CountBelow(t, v)
  {
    if s == [] {
      assert s + t == t;
    } else {
      assert (s + t)[1..] == s[1..] + t;
      CountConcat(s[1..], t, v);
    }
  }

  lemma {:induction false} CountInsert(x: real, s: seq<real>, v: real)
    ensures CountAbove(Insert(x, s), v) == CountAbove([x] + s, v) && CountBelow(Insert(x, s), v) == CountBelow([x] + s, v)
  {
    if s != [] && x > s[0] {
      CountInsert(x, s[1..], v);
      assert s == [s[0]] + s[1..];
      CountConcat([s[0]], Insert(x, s[1..]), v);
      CountConcat([x], s[1..], v);
      CountConcat([x], s, v);
      CountConcat([s[0]], s[1..], v);
    }
  }

  lemma {:induction false} CountSorted(s: seq<real>, v: real)
    ensures CountAbove(Sort(s), v) == CountAbove(s, v) && CountBelow(Sort(s), v) == CountBelow(s, v)
  {
    if s != [] {
      var n := |s| - 1;
      CountSorted(s[..n], v);
      CountInsert(s[n], Sort(s[..n]), v);
      CountConcat([s[n]], Sort(s[..n]), v);
      CountConcat(s[..n], [s[n]], v);
      assert s == s[..n] + [s[n]];
    }
  }

  lemma {:induction false} CountOfRest(s: seq<real>, v: real)
    ensures CountAbove(s, v) <= |s| && CountBelow(s, v) <= |s|
    ensures (forall i :: 0 <= i < |s| ==> s[i] <= v) ==> CountAbove(s, v) == 0
    ensures (forall i :: 0 <= i < |s| ==> s[i] >= v) ==> CountBelow(s, v) == 0
  {
    if s != [] {
      CountOfRest(s[1..], v);
    }
  }

  /** In order, everything up to a sample that does not exceed `v` is not above it. */
  lemma FewAbove(t: seq<real>, k: nat, v: real)
    requires Ordered(t) && k < |t| && t[k] <= v
    ensures CountAbove(t, v) <= |t| - 1 - k
  {
    assert t == t[..k + 1] + t[k + 1..];
    CountConcat(t[..k + 1], t[k + 1..], v);
    CountOfRest(t[..k + 1], v);
    CountOfRest(t[k + 1..], v);
  }

  lemma FewBelow(t: seq<real>, k: nat, v: real)
    requires Ordered(t) && k < |t| && v <= t[k]
    ensures CountBelow(t, v) <= k
  {
    assert t == t[..k] + t[k..];
    CountConcat(t[..k], t[k..], v);
    CountOfRest(t[..k], v);
    CountOfRest(t[k..], v);
  }

  lemma ValueAtRank(t: seq<real>, index: real)
    requires t != [] && Ordered(t) && 0.0 <= index <= (|t| - 1) as real
    ensures CountAbove(t, ValueAt(t, index)) as real < (|t| - 1) as real - index + 1.0
    ensures CountBelow(t, ValueAt(t, index)) as real < index + 1.0
  {
    hide Ordered, Blend, Trunc, CountAbove, CountBelow;
    TruncOfNonNegative(index);
    var l, v := Trunc(index), ValueAt(t, index);
    if l + 1 >= |t| {
      FewAbove(t, |t| - 1, v);
      FewBelow(t, |t| - 1, v);
    } else {
      assert t[l] <= t[l + 1] by { NextIsNoSmaller(t, l); }
      BlendBetween(t[l], t[l + 1], index - l as real);
      FewAbove(t, l, v);
      if index == l as real {
        assert v == t[l] by { NoBlend(t[l], t[l + 1]); }
        FewBelow(t, l, v);
      } else {
        FewBelow(t, l + 1, v);
      }
    }
  }

  lemma NextIsNoSmaller(t: seq<real>, l: nat)
    requires Ordered(t) && l + 1 < |t|
    ensures t[l] <= t[l + 1]
  {
  }

  lemma NoBlend(a: real, b: real)
    ensures Blend(a, b, 0.0) == a
  {
  }

  lemma IndexInRange(n: nat, p: real)
    requires n >= 1 && 0.0 <= p <= 1.0
    ensures 0.0 <= Index(n, p) <= (n - 1) as real
    ensures (n - 1) as real - Index(n, p) == (1.0 - p) * (n - 1) as real
  {
    var m := (n - 1) as real;
    ProductNonNegative(p, m);
    ProductNonNegative(1.0 - p, m);
    assert (1.0 - p) * m == m - p * m;
  }

  /** What a percentile means: of `n` samples fewer than p(n-1) + 1 lie below it and fewer than
      (1-p)(n-1) + 1 above it. */
  lemma PercentileRank(values: seq<real>, p: real)
    requires values != [] && 0.0 <= p <= 1.0
    ensures CountBelow(values, Percentile(values, p)) as real < p * (|values| - 1) as real + 1.0
    ensures CountAbove(values, Percentile(values, p)) as real < (1.0 - p) * (|values| - 1) as real + 1.0
  {
    hide Percentile, CountAbove, CountBelow;
    IndexInRange(|values|, p);
    RankOfIndex(values, p);
    assert Index(|values|, p) == p * (|values| - 1) as real;
  }

  lemma RankOfIndex(values: seq<real>, p: real)
    requires values != [] && 0.0 <= p <= 1.0
    ensures CountBelow(values, Percentile(values, p)) as real < Index(|values|, p) + 1.0
    ensures CountAbove(values, Percentile(values, p)) as real < (|values| - 1) as real - Index(|values|, p) + 1.0
  {
    hide Sort, Ordered, ValueAt, CountAbove, CountBelow, Index;
    SortSorts(values);
    IndexInRange(|values|, p);
    ValueAtRank(Sort(values), Index(|values|, p));
    CountSorted(values, Percentile(values, p));
  }

  // ----- mean and maximum

  function Sum(values: seq<real>): real {
    if values == [] then 0.0 else Sum(values[..|values| - 1]) + values[|values| - 1]
  }

  function Mean(values: seq<real>): real {
    if values == [] then 0.0 else Sum(values) / |values| as real
  }

  lemma {:induction false} SumInsert(x: real, s: seq<real>)
    ensures Sum(Insert(x, s)) == Sum(s) + x
  {
    if s == [] || x <= s[0] {
      SumConcat([x], s);
      assert Sum([x]) == x;
    } else {
      SumInsert(x, s[1..]);
      SumConcat([s[0]], Insert(x, s[1..]));
      SumConcat([s[0]], s[1..]);
      assert s == [s[0]] + s[1..];
    }
  }

  lemma {:induction false} SumConcat(s: seq<real>, t: seq<real>)
    ensures Sum(s + t) == Sum(s) + Sum(t)
    decreases |t|
  {
    if t == [] {
      assert s + t == s;
    } else {
      var n := |t| - 1;
      SumConcat(s, t[..n]);
      assert (s + t)[..|s + t| - 1] == s + t[..n];
    }
  }

  lemma {:induction false} SumOfSorted(s: seq<real>)
    ensures Sum(Sort(s)) == Sum(s)
  {
    if s != [] {
      SumOfSorted(s[..|s| - 1]);
      SumInsert(s[|s| - 1], Sort(s[..|s| - 1]));
    }
  }

  /** The mean does not depend on the order of the samples. */
  lemma MeanForgetsOrder(s: seq<real>, t: seq<real>)
    requires multiset(s) == multiset(t)
    ensures Mean(s) == Mean(t)
  {
    assert |s| == |multiset(s)| == |multiset(t)| == |t|;
    SortForgetsOrder(s, t);
    SumOfSorted(s);
    SumOfSorted(t);
  }

  lemma {:induction false} SumDominates(s: seq<real>, t: seq<real>)
    requires Below(s, t)
    ensures Sum(s) <= Sum(t)
  {
    if s != [] {
      SumDominates(s[..|s| - 1], t[..|t| - 1]);
    }
  }

  lemma MeanDominates(s: seq<real>, t: seq<real>)
    requires Below(s, t)
    ensures Mean(s) <= Mean(t)
  {
    SumDominates(s, t);
    if s != [] {
      var d := (Sum(t) - Sum(s)) / |s| as real;
      assert d >= 0.0;
      assert Mean(t) == Mean(s) + d;
    }
  }

  lemma {:induction false} SumBetween(s: seq<real>, low: real, high: real)
    requires forall i :: 0 <= i < |s| ==> low <= s[i] <= high
    ensures low * |s| as real <= Sum(s) <= high * |s| as real
  {
    if s != [] {
      var init := s[..|s| - 1];
      SumBetween(init, low, high);
      assert |s| as real == |init| as real + 1.0;
      assert low * |s| as real == low * |init| as real + low;
      assert high * |s| as real == high * |init| as real + high;
    }
  }

  lemma ScaleLess(x: real, y: real, n: real)
    requires n > 0.0 && x < y
    ensures x * n < y * n
  {
    ProductPositive(y - x, n);
    assert (y - x) * n == y * n - x * n;
  }

  lemma QuotientBetween(low: real, high: real, sum: real, n: real)
    requires n > 0.0 && low * n <= sum <= high * n
    ensures low <= sum / n <= high
  {
    var q := sum / n;
    assert q * n == sum;
    if q < low {
      ScaleLess(q, low, n);
    }
    if q > high {
      ScaleLess(high, q, n);
    }
  }

  /** The mean lies between any bounds of the samples. */
  lemma MeanInRange(s: seq<real>, low: real, high: real)
    requires s != [] && forall i :: 0 <= i < |s| ==> low <= s[i] <= high
    ensures low <= Mean(s) <= high
  {
    hide Sum;
    SumBetween(s, low, high);
    QuotientBetween(low, high, Sum(s), |s| as real);
  }

  function Max(values: seq<int>): int {
    if values == [] then 0
    else if |values| == 1 then values[0]
    else
      var m := Max(values[..|values| - 1]);
      if values[|values| - 1] > m then values[|values| - 1] else m
  }

  lemma {:induction false} MaxIsLargest(values: seq<int>)
    requires values != []
    ensures Max(values) in values && forall i :: 0 <= i < |values| ==> values[i] <= Max(values)
  {
    if |values| > 1 {
      MaxIsLargest(values[..|values| - 1]);
    }
  }

  lemma MaxForgetsOrder(s: seq<int>, t: seq<int>)
    requires multiset(s) == multiset(t)
    ensures Max(s) == Max(t)
  {
    assert |s| == |multiset(s)| == |multiset(t)| == |t|;
    if s != [] {
      MaxIsLargest(s);
      MaxIsLargest(t);
      assert Max(s) in multiset(t) && Max(t) in multiset(s);
      assert Max(s) in t && Max(t) in s;
    }
  }

  lemma MaxDominates(s: seq<int>, t: seq<int>)
    requires |s| == |t| && forall i :: 0 <= i < |s| ==> s[i] <= t[i]
    ensures Max(s) <= Max(t)
  {
    if s != [] {
      MaxIsLargest(s);
      MaxIsLargest(t);
      var i :| 0 <= i < |s| && s[i] == Max(s);
      assert t[i] <= Max(t);
    }
  }
}
