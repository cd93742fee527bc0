/** Order statistics over the bounded sample store: Quantile and MedianMAD. */
module Quantiles {
  import opened Options
  import opened Permutations
  import opened Stats


  ghost predicate Ascending(s: seq<real>) {
    forall i, j :: 0 <= i < j < |s| ==> s[i] <= s[j]
  }

  function Insert(s: seq<real>, x: real): (r: seq<real>)
    requires Ascending(s)
    ensures Ascending(r) && |r| == |s| + 1
    ensures r[|s|] == if s == [] || s[|s|-1] <= x then x else s[|s|-1]
  {
    if s == [] then [x]
    else if s[|s|-1] <= x then s + [x]
    else Insert(s[..|s|-1], x) + [s[|s|-1]]
  }

  /** A sorted copy; the library sort may order ties differently, which no sequence of numbers shows. */
  function Sort(s: seq<real>): (r: seq<real>)
    ensures Ascending(r) && |r| == |s|
  {
    if s == [] then [] else Insert(Sort(s[..|s|-1]), s[|s|-1])
  }

  lemma {:induction false} InsertAdds(s: seq<real>, x: real)
    requires Ascending(s)
    ensures multiset(Insert(s, x)) == multiset(s) + multiset{x}
  {
    if s != [] && s[|s|-1] > x {
      InsertAdds(s[..|s|-1], x);
      SplitLast(s);
    }
  }

  lemma {:induction false} SortPermutes(s: seq<real>)
    ensures multiset(Sort(s)) == multiset(s)
  {
    if s != [] {
      SortPermutes(s[..|s|-1]);
      InsertAdds(Sort(s[..|s|-1]), s[|s|-1]);
      SplitLast(s);
    }
  }

  lemma SortKeepsMembers(s: seq<real>, v: real)
    ensures v in s <==> v in Sort(s)
  {
    SortPermutes(s);
    assert v in s <==> v in multiset(s);
    assert v in Sort(s) <==> v in multiset(Sort(s));
  }

  /** The value at a fractional rank, interpolated between its two neighbours. */
  function AtRank(values: seq<real>, pos: real): real
    requires 0.0 <= pos <= (|values| - 1) as real
  {
    var lo := pos.Floor;
    var hi := if lo as real == pos then lo else lo + 1;
    if lo == hi then values[lo]
    else
      var frac := pos - lo as real;
      values[lo] * (1.0 - frac) + values[hi] * frac
  }

  lemma ProductNotNegative(a: real, b: real)
    requires a >= 0.0 && b >= 0.0
    ensures a * b >= 0.0
  {
  }

  lemma Difference(p: real, q: real, n: real)
    ensures (q - p) * n == q * n - p * n
  {
  }

  /** The fractional rank of quantile `q` when the largest rank is `top`. */
  function Rank(q: real, top: real): real { q * top }

  lemma RanksAscend(p: real, q: real, top: real)
    requires p <= q && top >= 0.0
    ensures Rank(p, top) <= Rank(q, top)
  {
    ProductNotNegative(q - p, top);
    Difference(p, q, top);
  }

  lemma RankWithin(q: real, top: real)
    requires 0.0 <= q <= 1.0 && top >= 0.0
    ensures 0.0 <= Rank(q, top) <= top
  {
    RanksAscend(0.0, q, top);
    RanksAscend(q, 1.0, top);
  }

  function SortedQuantile(values: seq<real>, q: real): real
    requires values != []
  {
    if q <= 0.0 then values[0]
    else if q >= 1.0 then values[|values|-1]
    else
      var top := (|values| - 1) as real;
      RankWithin(q, top);
      AtRank(values, Rank(q, top))
  }

  function QuantileOf(samples: seq<real>, q: real): Option<real> {
    if |samples| == 0 then None else Some(SortedQuantile(Sort(samples), q))
  }

  function Quantile(s: Summary, q: real): Option<real> {
    QuantileOf(s.samples, q)
  }

  // ---------- It depends only on the multiset of samples ----------

  lemma LastIsGreatest(s: seq<real>, v: real)
    requires Ascending(s) && s != [] && v in multiset(s)
    ensures v <= s[|s|-1]
  {
    assert v in s;
  }

  lemma SameMultisetSameLength<T>(a: seq<T>, b: seq<T>)
    requires multiset(a) == multiset(b)
    ensures |a| == |b|
  {
    assert |multiset(a)| == |a| && |multiset(b)| == |b|;
  }

  lemma {:induction false} AscendingUnique(a: seq<real>, b: seq<real>)
    requires Ascending(a) && Ascending(b) && multiset(a) == multiset(b)
    ensures a == b
    decreases |a|
  {
    SameMultisetSameLength(a, b);
    if a != [] {
      var n := |a| - 1;
      SplitLast(a);
      SplitLast(b);
      LastIsGreatest(a, b[n]);
      LastIsGreatest(b, a[n]);
      CancelOne(multiset(a[..n]), multiset(b[..n]), a[n]);
      AscendingUnique(a[..n], b[..n]);
      SnocEqual(a, b);
    }
  }

  lemma SnocEqual<T>(a: seq<T>, b: seq<T>)
    requires |a| == |b| > 0 && a[..|a|-1] == b[..|b|-1] && a[|a|-1] == b[|b|-1]
    ensures a == b
  {
    assert a == a[..|a|-1] + [a[|a|-1]];
    assert b == b[..|b|-1] + [b[|b|-1]];
  }

  lemma SortIgnoresOrder(a: seq<real>, b: seq<real>)
    requires multiset(a) == multiset(b)
    ensures Sort(a) == Sort(b)
  {
    SortPermutes(a);
    SortPermutes(b);
    AscendingUnique(Sort(a), Sort(b));
  }

  lemma QuantileIgnoresOrder(a: seq<real>, b: seq<real>, q: real)
    requires multiset(a) == multiset(b)
    ensures QuantileOf(a, q) == QuantileOf(b, q)
  {
    SameMultisetSameLength(a, b);
    SortIgnoresOrder(a, b);
  }

  /** Together with the sliding window: from 256 values on, only the last 128 decide any quantile. */
  lemma QuantileForgets(vs: seq<real>, q: real)
    requires |vs| >= 2 * RESERVOIR
    ensures Quantile(After(vs), q) == QuantileOf(LastWindow(vs), q)
  {
    SlidingWindow(vs);
    QuantileIgnoresOrder(After(vs).samples, LastWindow(vs), q);
  }

  // ---------- Bounds and monotonicity ----------

  lemma Interpolation(a: real, b: real, f: real, g: real)
    requires a <= b && 0.0 <= f <= g <= 1.0
    ensures a <= a * (1.0 - f) + b * f <= a * (1.0 - g) + b * g <= b
  {
    var d := b - a;
    assert a * (1.0 - f) + b * f == a + d * f;
    assert a * (1.0 - g) + b * g == a + d * g;
    assert 0.0 <= d * f;
    assert d * (g - f) >= 0.0;
    assert d * (1.0 - g) >= 0.0;
  }

  /** A fractional rank yields a value between its neighbours. */
  lemma RankBetween(values: seq<real>, pos: real)
    requires Ascending(values) && 0.0 <= pos <= (|values| - 1) as real
    ensures var lo := pos.Floor;
            && 0 <= lo < |values|
            && values[lo] <= AtRank(values, pos)
            && forall j :: lo < j < |values| ==> AtRank(values, pos) <= values[j]
  {
    var lo := pos.Floor;
    if lo as real != pos {
      var f := pos - lo as real;
      Interpolation(values[lo], values[lo+1], f, f);
    }
  }

  lemma RankMonotone(values: seq<real>, p: real, q: real)
    requires Ascending(values) && 0.0 <= p <= q <= (|values| - 1) as real
    ensures AtRank(values, p) <= AtRank(values, q)
  {
    var lo, lo' := p.Floor, q.Floor;
    RankBetween(values, p);
    RankBetween(values, q);
    if lo == lo' && lo as real != q {
      Interpolation(values[lo], values[lo+1], p - lo as real, q - lo as real);
    }
  }

  lemma SortedQuantileBounds(values: seq<real>, q: real)
    requires Ascending(values) && values != []
    ensures values[0] <= SortedQuantile(values, q) <= values[|values|-1]
  {
    if 0.0 < q < 1.0 {
      var pos := Rank(q, (|values| - 1) as real);
      RankWithin(q, (|values| - 1) as real);
      RankBetween(values, pos);
      RankMonotone(values, pos, (|values| - 1) as real);
    }
  }

  lemma SortedQuantileMonotone(values: seq<real>, p: real, q: real)
    requires Ascending(values) && values != [] && p <= q
    ensures SortedQuantile(values, p) <= SortedQuantile(values, q)
  {
    SortedQuantileBounds(values, p);
    SortedQuantileBounds(values, q);
    if 0.0 < p && q < 1.0 {
      var top := (|values| - 1) as real;
      RanksAscend(p, q, top);
      RankWithin(p, top);
      RankWithin(q, top);
      RankMonotone(values, Rank(p, top), Rank(q, top));
    }
  }

  /** The value the share `f` of the way from `a` to `b`. */
  function Blend(a: real, b: real, f: real): real { a + f * (b - a) }

  /** With the share `q` of the way through the sorted samples leading `beyond` past position `k`, the quantile is as far
      between the values at `k` and `k + 1`. */
  lemma QuantileInterpolates(samples: seq<real>, values: seq<real>, q: real, k: nat, top: real, beyond: real)
    requires values == Sort(samples) && 0.0 < q < 1.0 && k + 1 < |samples| && top == (|samples| - 1) as real
    requires Rank(q, top) == k as real + beyond && 0.0 <= beyond < 1.0
    ensures |values| == |samples|
    ensures QuantileOf(samples, q) == Some(Blend(values[k], values[k+1], beyond))
  {
    QuantileOfSorted(samples, values, q);
    hide Sort, SortedQuantile, QuantileOf, Rank, Blend;
    SortedQuantileIs(values, q, k, top, beyond);
  }

  lemma QuantileOfSorted(samples: seq<real>, values: seq<real>, q: real)
    requires samples != [] && values == Sort(samples)
    ensures |values| == |samples| && QuantileOf(samples, q) == Some(SortedQuantile(values, q))
  {
    hide SortedQuantile;
  }

  lemma SortedQuantileIs(values: seq<real>, q: real, k: nat, top: real, beyond: real)
    requires 0.0 < q < 1.0 && k + 1 < |values| && top == (|values| - 1) as real
    requires Rank(q, top) == k as real + beyond && 0.0 <= beyond < 1.0
    ensures SortedQuantile(values, q) == Blend(values[k], values[k+1], beyond)
  {
    RankWithin(q, top);
    hide AtRank, Rank, Blend;
    assert SortedQuantile(values, q) == AtRank(values, Rank(q, top));
    AtRankIs(values, Rank(q, top), k, beyond);
  }

  lemma Blended(a: real, b: real, f: real)
    ensures a * (1.0 - f) + b * f == Blend(a, b, f)
    ensures f == 0.0 ==> Blend(a, b, f) == a
  {
  }

  lemma AtRankIs(values: seq<real>, pos: real, k: nat, beyond: real)
    requires k + 1 < |values| && 0.0 <= pos <= (|values| - 1) as real && pos == k as real + beyond && 0.0 <= beyond < 1.0
    ensures AtRank(values, pos) == Blend(values[k], values[k+1], beyond)
  {
    hide Blend;
    assert pos.Floor == k;
    Blended(values[k], values[k+1], beyond);
  }

  /** Every quantile of a non-empty store lies between its smallest and largest sample, which the
      quantiles 0 and 1 name exactly. */
  lemma QuantileWithinSamples(samples: seq<real>, q: real)
    requires samples != []
    ensures QuantileOf(samples, q).Some?
    ensures QuantileOf(samples, 0.0).value <= QuantileOf(samples, q).value <= QuantileOf(samples, 1.0).value
    ensures QuantileOf(samples, 0.0).value in samples && QuantileOf(samples, 1.0).value in samples
    ensures forall v :: v in samples ==> QuantileOf(samples, 0.0).value <= v <= QuantileOf(samples, 1.0).value
  {
    var values := Sort(samples);
    SortedQuantileBounds(values, q);
    SortKeepsMembers(samples, values[0]);
    SortKeepsMembers(samples, values[|values|-1]);
    forall v | v in samples ensures values[0] <= v <= values[|values|-1] {
      SortKeepsMembers(samples, v);
    }
  }

  lemma QuantileMonotone(samples: seq<real>, p: real, q: real)
    requires samples != [] && p <= q
    ensures QuantileOf(samples, p).value <= QuantileOf(samples, q).value
  {
    SortedQuantileMonotone(Sort(samples), p, q);
  }

  // ---------- Median absolute deviation ----------

  datatype MedianMAD = MedianMAD(median: real, mad: real)

  function Distance(a: real, b: real): real { if a < b then b - a else a - b }

  function Deviations(samples: seq<real>, centre: real): (r: seq<real>)
    ensures |r| == |samples|
  {
    seq(|samples|, i requires 0 <= i < |samples| => Distance(samples[i], centre))
  }

  /** The middle of an ascending sequence, by the even/odd rule. */
  function Middle(sorted: seq<real>): real
    requires sorted != []
  {
    var mid := |sorted| / 2;
    if |sorted| % 2 == 0 then (sorted[mid-1] + sorted[mid]) / 2.0 else sorted[mid]
  }

  function MedianMADOf(samples: seq<real>): Option<MedianMAD> {
    match QuantileOf(samples, 0.5)
    case None => None
    case Some(median) => Some(MedianMAD(median, Middle(Sort(Deviations(samples, median)))))
  }

  lemma MiddleOfOdd(values: seq<real>, mid: nat)
    requires |values| == 2 * mid + 1
    ensures SortedQuantile(values, 0.5) == values[mid]
  {
    assert Rank(0.5, (|values| - 1) as real) == mid as real;
  }

  lemma MiddleOfEven(values: seq<real>, mid: nat)
    requires |values| == 2 * mid && mid > 0
    ensures SortedQuantile(values, 0.5) == (values[mid-1] + values[mid]) / 2.0
  {
    var pos := Rank(0.5, (|values| - 1) as real);
    assert pos == (mid - 1) as real + 0.5;
    assert pos.Floor == mid - 1;
  }

  lemma HalfRankOfSorted(values: seq<real>)
    requires values != []
    ensures SortedQuantile(values, 0.5) == Middle(values)
  {
    var mid := |values| / 2;
    if |values| % 2 == 0 { MiddleOfEven(values, mid); } else { MiddleOfOdd(values, mid); }
  }

  /** The interpolated rank 0.5 and the even/odd rule are the same number. */
  lemma HalfRankIsMiddle(samples: seq<real>)
    requires samples != []
    ensures QuantileOf(samples, 0.5) == Some(Middle(Sort(samples)))
  {
    HalfRankOfSorted(Sort(samples));
  }

  /** `m` is a median of `s`: at least half of the values are on either side of it, ties included. */
  ghost predicate IsMedian(s: seq<real>, m: real) {
    && 2 * CountAtMost(s, m) >= |s|
    && 2 * CountAtLeast(s, m) >= |s|
  }

  ghost function CountAtMost(s: seq<real>, m: real): nat {
    if s == [] then 0 else CountAtMost(s[..|s|-1], m) + if s[|s|-1] <= m then 1 else 0
  }

  ghost function CountAtLeast(s: seq<real>, m: real): nat {
    if s == [] then 0 else CountAtLeast(s[..|s|-1], m) + if s[|s|-1] >= m then 1 else 0
  }

  /** Counting looks only at the multiset: remove one element anywhere and the count drops accordingly. */
  lemma {:induction false} CountsRemoveAt(s: seq<real>, k: nat, m: real)
    requires k < |s|
    ensures CountAtMost(s, m) == CountAtMost(s[..k] + s[k+1..], m) + if s[k] <= m then 1 else 0
    ensures CountAtLeast(s, m) == CountAtLeast(s[..k] + s[k+1..], m) + if s[k] >= m then 1 else 0
  {
    var n, r := |s| - 1, s[..k] + s[k+1..];
    if k == n {
      assert r == s[..n];
    } else {
      var t := s[..n];
      var u := t[..k] + t[k+1..];
      CountsRemoveAt(t, k, m);
      hide CountAtMost, CountAtLeast;
      assert s == t + [s[n]];
      assert r == u + [s[n]] by {
        assert s[k+1..] == t[k+1..] + [s[n]];
        assert s[..k] == t[..k];
      }
      CountsNext(u, s[n], m);
      CountsNext(t, s[n], m);
    }
  }

  lemma CountsNext(s: seq<real>, x: real, m: real)
    ensures CountAtMost(s + [x], m) == CountAtMost(s, m) + if x <= m then 1 else 0
    ensures CountAtLeast(s + [x], m) == CountAtLeast(s, m) + if x >= m then 1 else 0
  {
    assert (s + [x])[..|s|] == s;
  }

  lemma {:induction false} CountsIgnoreOrder(a: seq<real>, b: seq<real>, m: real)
    requires multiset(a) == multiset(b)
    ensures CountAtMost(a, m) == CountAtMost(b, m) && CountAtLeast(a, m) == CountAtLeast(b, m)
    decreases |a|
  {
    SameMultisetSameLength(a, b);
    if a != [] {
      var n := |a| - 1;
      SplitLast(a);
      assert a[n] in multiset(b);
      var k :| 0 <= k < |b| && b[k] == a[n];
      CountsRemoveAt(b, k, m);
      RemoveAt(b, k);
      CancelOne(multiset(a[..n]), multiset(b[..k] + b[k+1..]), a[n]);
      CountsIgnoreOrder(a[..n], b[..k] + b[k+1..], m);
    }
  }

  /** In an ascending sequence, the first `k` values are below `m` when the k-th is, and dually. */
  lemma {:induction false} CountsOfAscending(s: seq<real>, k: nat, m: real)
    requires Ascending(s) && k <= |s|
    ensures k > 0 && s[k-1] <= m ==> CountAtMost(s, m) >= k
    ensures k < |s| && s[k] >= m ==> CountAtLeast(s, m) >= |s| - k
  {
    if |s| > 0 && k < |s| {
      CountsOfAscending(s[..|s|-1], k, m);
    } else if |s| > 0 {
      CountsOfAscending(s[..|s|-1], k - 1, m);
    }
  }

  lemma MiddleIsMedian(sorted: seq<real>)
    requires sorted != [] && Ascending(sorted)
    ensures IsMedian(sorted, Middle(sorted))
  {
    var mid := |sorted| / 2;
    CountsOfAscending(sorted, mid, Middle(sorted));
    if |sorted| % 2 == 1 { CountsOfAscending(sorted, mid + 1, Middle(sorted)); }
  }

  lemma MedianOfSort(s: seq<real>)
    requires s != []
    ensures IsMedian(s, Middle(Sort(s)))
  {
    MiddleIsMedian(Sort(s));
    SortPermutes(s);
    CountsIgnoreOrder(s, Sort(s), Middle(Sort(s)));
  }

  lemma DistancesNonNegative(samples: seq<real>, centre: real)
    requires samples != []
    ensures Middle(Sort(Deviations(samples, centre))) >= 0.0
  {
    var devs := Deviations(samples, centre);
    var sorted := Sort(devs);
    forall j | 0 <= j < |sorted| ensures sorted[j] >= 0.0 {
      SortKeepsMembers(devs, sorted[j]);
    }
  }

  /** MedianMAD answers unless the store is empty; the median is a true median of the samples, and the
      MAD a true median, never negative, of the absolute deviations from it. */
  lemma MedianMADIsTrueMedian(samples: seq<real>)
    ensures MedianMADOf(samples).None? <==> samples == []
    ensures samples != [] ==>
      var r := MedianMADOf(samples).value;
      && IsMedian(samples, r.median)
      && IsMedian(Deviations(samples, r.median), r.mad)
      && r.mad >= 0.0
  {
    if samples != [] {
      HalfRankIsMiddle(samples);
      MedianOfSort(samples);
      var median := Middle(Sort(samples));
      MedianOfSort(Deviations(samples, median));
      DistancesNonNegative(samples, median);
    }
  }

  /** The computation itself: the median, then the deviations one by one, then their middle. */
  method ComputeMedianMAD(s: Summary) returns (r: Option<MedianMAD>)
    ensures r == MedianMADOf(s.samples)
    ensures r.Some? ==> IsMedian(s.samples, r.value.median) && IsMedian(Deviations(s.samples, r.value.median), r.value.mad)
  {
    hide Sort, SortedQuantile, Middle, IsMedian;
    MedianMADIsTrueMedian(s.samples);
    var quantile := Quantile(s, 0.5);
    if quantile.None? { return None; }
    var median := quantile.value;
    var deviations: seq<real> := [];
    for i := 0 to |s.samples|
      invariant |deviations| == i && forall j :: 0 <= j < i ==> deviations[j] == Distance(s.samples[j], median)
    {
      deviations := deviations + [Distance(s.samples[i], median)];
    }
    assert deviations == Deviations(s.samples, median);
    r := Some(MedianMAD(median, Middle(Sort(deviations))));
  }
}
