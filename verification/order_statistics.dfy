/** Nearest-rank percentiles (internal/store/store.go, `distribution` and `percentile`; the agent has its own
    copy in internal/agent/runner.go) and the fallback that merges distributions without their samples. */
module OrderStatistics {
  import opened Core
  import opened Folds

  ghost predicate IsSorted(s: seq<nat>) {
    forall i, j :: 0 <= i < j < |s| ==> s[i] <= s[j]
  }

  /** How many leading values lie below `x`. */
  function InsertionPoint(s: seq<nat>, x: nat): (n: nat)
    ensures n <= |s| && (forall i :: 0 <= i < n ==> s[i] < x)
    ensures n < |s| ==> x <= s[n]
  {
    if s == [] || x <= s[0] then 0 else 1 + InsertionPoint(s[1..], x)
  }

  function Insert(x: nat, s: seq<nat>): (r: seq<nat>)
    requires IsSorted(s)
    ensures IsSorted(r) && multiset(r) == multiset(s) + multiset{x}
  {
    var n := InsertionPoint(s, x);
    PutIn(x, s, n);
    s[..n] + [x] + s[n..]
  }

  /** sort.Slice on a copy: the one sorted list with the same elements. */
  function Sort(s: seq<nat>): (r: seq<nat>)
    ensures IsSorted(r) && multiset(r) == multiset(s) && |r| == |s|
  {
    if s == [] then [] else
      assert s == [s[0]] + s[1..];
      var r := Insert(s[0], Sort(s[1..]));
      assert |multiset(r)| == |multiset(s)|;
      r
  }

  lemma SmallestFirst(a: seq<nat>, b: seq<nat>)
    requires IsSorted(a) && a != [] && b != [] && multiset(a) == multiset(b)
    ensures a[0] <= b[0]
  {
    assert b[0] in multiset(b);
    assert b[0] in a;
  }

  lemma RestOf(a: seq<nat>)
    requires a != []
    ensures multiset(a[1..]) == multiset(a) - multiset{a[0]}
  {
    assert a == [a[0]] + a[1..];
  }

  lemma {:induction false} SortedIsUnique(a: seq<nat>, b: seq<nat>)
    requires IsSorted(a) && IsSorted(b) && multiset(a) == multiset(b)
    ensures a == b
    decreases |a|
  {
    assert |multiset(a)| == |multiset(b)|;
    if a != [] {
      SmallestFirst(a, b);
      SmallestFirst(b, a);
      RestOf(a);
      RestOf(b);
      SortedIsUnique(a[1..], b[1..]);
      assert a == [a[0]] + a[1..] && b == [b[0]] + b[1..];
    }
  }

  /** Whether a value is at or below `v`, as a summand. */
  function AtMost(v: int): nat -> int { (x: nat) => if x <= v then 1 else 0 }

  function CountAtMost(s: seq<nat>, v: int): int { SumBy(AtMost(v), s) }

  lemma {:induction false} CountBounds(s: seq<nat>, v: int, w: int)
    requires v <= w
    ensures 0 <= CountAtMost(s, v) <= CountAtMost(s, w) <= |s|
  {
    if s != [] { CountBounds(s[1..], v, w); }
  }

  lemma {:induction false} CountAll(s: seq<nat>, v: int)
    requires forall i :: 0 <= i < |s| ==> s[i] <= v
    ensures CountAtMost(s, v) == |s|
  {
    if s != [] { CountAll(s[1..], v); }
  }

  lemma {:induction false} CountNone(s: seq<nat>, v: int)
    requires forall i :: 0 <= i < |s| ==> v < s[i]
    ensures CountAtMost(s, v) == 0
  {
    if s != [] { CountNone(s[1..], v); }
  }

  /** Rank and count say the same thing about a sorted list. */
  lemma CountInSorted(s: seq<nat>, k: nat, v: int)
    requires IsSorted(s) && k < |s|
    ensures k < CountAtMost(s, v) <==> s[k] <= v
  {
    assert s == s[..k] + s[k..];
    SumByConcat(AtMost(v), s[..k], s[k..]);
    CountBounds(s[..k], v, v);
    CountBounds(s[k + 1..], v, v);
    if s[k] <= v {
      CountAll(s[..k], v);
    } else {
      CountNone(s[k..], v);
    }
  }

  /** The zero-based nearest rank among `n` values: `c` values cover the percentage exactly when the
      rank is below `c`. */
  function Rank(n: nat, percentage: nat): (k: nat)
    requires n > 0 && 1 <= percentage <= 100
    ensures k < n
    ensures forall c: int :: k < c <==> n * percentage <= 100 * c
  {
    assert n <= n * percentage <= 100 * n;
    (n * percentage + 99) / 100 - 1
  }

  function Percentile(sorted: seq<nat>, percentage: nat): (v: nat)
    requires sorted != [] && 1 <= percentage <= 100
    ensures v in sorted
  {
    sorted[Rank(|sorted|, percentage)]
  }

  function PercentileOf(values: seq<nat>, percentage: nat): nat
    requires values != [] && 1 <= percentage <= 100
  {
    Percentile(Sort(values), percentage)
  }

  /** At least `percentage` percent of the values are at or below `v`. */
  predicate Covers(values: seq<nat>, percentage: nat, v: int) {
    |values| * percentage <= 100 * CountAtMost(values, v)
  }

  /** The nearest-rank percentile is a sample, and it is the least number that covers its percentage. */
  lemma PercentileIsLeastCover(values: seq<nat>, percentage: nat, v: int)
    requires values != [] && 1 <= percentage <= 100
    ensures PercentileOf(values, percentage) in values
    ensures Covers(values, percentage, v) <==> PercentileOf(values, percentage) <= v
  {
    var sorted := Sort(values);
    var k := Rank(|sorted|, percentage);
    assert sorted[k] in multiset(sorted);
    CountInSorted(sorted, k, v);
    SumByPermutation(AtMost(v), values, sorted);
  }

  function Sum(s: seq<nat>): nat { if s == [] then 0 else s[0] + Sum(s[1..]) }

  function Itself(): nat -> int { (x: nat) => x }

  lemma {:induction false} SumIsSumBy(s: seq<nat>)
    ensures Sum(s) == SumBy(Itself(), s)
  {
    if s != [] { SumIsSumBy(s[1..]); }
  }

  lemma SumPermutation(a: seq<nat>, b: seq<nat>)
    requires multiset(a) == multiset(b)
    ensures Sum(a) == Sum(b)
  {
    SumIsSumBy(a);
    SumIsSumBy(b);
    SumByPermutation(Itself(), a, b);
  }

  /** `a` is the mean of `n` values that add up to `sum`, rounded down. */
  predicate IsMean(a: nat, n: nat, sum: nat) { a * n <= sum < (a + 1) * n }

  /** `a` is at most the mean of `n` values that add up to `sum`. */
  predicate BelowMean(a: nat, n: nat, sum: nat) { a * n <= sum }

  function Average(s: seq<nat>): (a: nat)
    requires s != []
    ensures IsMean(a, |s|, Sum(s))
  {
    Quotient(Sum(s), |s|)
  }

  function Quotient(n: nat, d: nat): (q: nat)
    requires d > 0
    ensures q * d <= n < (q + 1) * d
  {
    n / d
  }

  function DistributionOf(values: seq<nat>): Distribution
  {
    if values == [] then NO_DISTRIBUTION else
      var sorted := Sort(values);
      Distribution(sorted[0], Average(sorted), Percentile(sorted, 50), Percentile(sorted, 95),
                   Percentile(sorted, 99), sorted[|sorted| - 1])
  }

  /** A distribution depends on which values were measured, not on their order. */
  lemma DistributionPermutation(a: seq<nat>, b: seq<nat>)
    requires multiset(a) == multiset(b)
    ensures DistributionOf(a) == DistributionOf(b)
  {
    assert |multiset(a)| == |multiset(b)|;
    SortedIsUnique(Sort(a), Sort(b));
  }

  lemma MembersOfSort(values: seq<nat>, x: nat)
    ensures x in values <==> x in Sort(values)
  {
    assert x in values <==> x in multiset(values);
    assert x in Sort(values) <==> x in multiset(Sort(values));
  }

  lemma SortedBounds(sorted: seq<nat>, x: nat)
    requires IsSorted(sorted) && x in sorted
    ensures sorted[0] <= x <= sorted[|sorted| - 1]
  {
  }

  lemma DistributionExtremes(values: seq<nat>, x: nat)
    requires values != []
    ensures var d := DistributionOf(values); d.min in values && d.max in values && (x in values ==> d.min <= x <= d.max)
  {
    hide Sort, Percentile, Average, IsSorted;
    var sorted := Sort(values);
    MembersOfSort(values, sorted[0]);
    MembersOfSort(values, sorted[|sorted| - 1]);
    MembersOfSort(values, x);
    if x in sorted { SortedBounds(sorted, x); }
  }

  lemma DistributionMean(values: seq<nat>)
    requires values != []
    ensures IsMean(DistributionOf(values).avg, |values|, Sum(values))
  {
    SumPermutation(values, Sort(values));
    assert IsMean(Average(Sort(values)), |Sort(values)|, Sum(Sort(values)));
  }

  /** Each reported percentile is a measured value, and the least number that covers its percentage. */
  lemma DistributionPercentiles(values: seq<nat>, v: int)
    requires values != []
    ensures var d := DistributionOf(values);
            && d.p50 in values && (d.p50 <= v <==> Covers(values, 50, v))
            && d.p95 in values && (d.p95 <= v <==> Covers(values, 95, v))
            && d.p99 in values && (d.p99 <= v <==> Covers(values, 99, v))
  {
    PercentileIsLeastCover(values, 50, v);
    PercentileIsLeastCover(values, 95, v);
    PercentileIsLeastCover(values, 99, v);
  }

  /** The controller's `distribution`, and the agent's: copy, sort, add up, index. */
  method Distribute(values: seq<nat>) returns (d: Distribution)
    ensures d == DistributionOf(values)
  {
    if |values| == 0 {
      return NO_DISTRIBUTION;
    }
    var sorted := Sort(values);
    var sum: nat := 0;
    for i := 0 to |sorted|
      invariant sum == Sum(sorted[..i])
    {
      SumIsSumBy(sorted[..i]);
      SumIsSumBy(sorted[..i + 1]);
      SumBySnoc(Itself(), sorted[..i], sorted[i]);
      assert sorted[..i] + [sorted[i]] == sorted[..i + 1];
      sum := sum + sorted[i];
    }
    assert sorted[..|sorted|] == sorted;
    d := Distribution(sorted[0], Quotient(sum, |sorted|), Percentile(sorted, 50), Percentile(sorted, 95),
                      Percentile(sorted, 99), sorted[|sorted| - 1]);
  }

  /** The agent's `p95`, which is 0 when nothing was measured. */
  function P95(values: seq<nat>): nat { DistributionOf(values).p95 }

  // ----- merging distributions whose samples are gone

  function MergeDistribution(current: Distribution, next: Distribution, currentWeight: nat,
                             nextWeight: nat): Distribution
  {
    if currentWeight == 0 then next else
      Distribution(
        Min(current.min, next.min),
        Quotient(current.avg * currentWeight + next.avg * nextWeight, currentWeight + nextWeight),
        Max(current.p50, next.p50), Max(current.p95, next.p95), Max(current.p99, next.p99),
        Max(current.max, next.max))
  }

  /** A shard's distribution and the number of values it stands for. */
  datatype Weighted = Weighted(distribution: Distribution, weight: nat)

  function TotalWeight(parts: seq<Weighted>): nat
  {
    if parts == [] then 0 else TotalWeight(parts[..|parts| - 1]) + parts[|parts| - 1].weight
  }

  /** The running merge of a loop over shards that starts at the zero distribution and weight 0. */
  function MergeInOrder(parts: seq<Weighted>): Distribution
  {
    if parts == [] then NO_DISTRIBUTION else
      var before, last := parts[..|parts| - 1], parts[|parts| - 1];
      MergeDistribution(MergeInOrder(before), last.distribution, TotalWeight(before), last.weight)
  }

  lemma MergeInOrderSnoc(parts: seq<Weighted>, last: Weighted)
    ensures TotalWeight(parts + [last]) == TotalWeight(parts) + last.weight
    ensures MergeInOrder(parts + [last])
         == MergeDistribution(MergeInOrder(parts), last.distribution, TotalWeight(parts), last.weight)
  {
    assert (parts + [last])[..|parts|] == parts;
  }

  /** `d` is exact about the extremes of `values`, high on its percentiles and low on its mean. */
  ghost predicate Cautious(d: Distribution, values: seq<nat>)
  {
    && d.min in values && d.max in values && (forall x :: x in values ==> d.min <= x <= d.max)
    && Covers(values, 50, d.p50) && Covers(values, 95, d.p95) && Covers(values, 99, d.p99)
    && BelowMean(d.avg, |values|, Sum(values))
  }

  lemma OwnDistributionIsCautious(values: seq<nat>)
    requires values != []
    ensures Cautious(DistributionOf(values), values)
  {
    var d := DistributionOf(values);
    DistributionMean(values);
    forall x | x in values ensures d.min <= x <= d.max { DistributionExtremes(values, x); }
    DistributionExtremes(values, 0);
    DistributionPercentiles(values, d.p50);
    DistributionPercentiles(values, d.p95);
    DistributionPercentiles(values, d.p99);
  }

  lemma CoversBoth(a: seq<nat>, b: seq<nat>, percentage: nat, v: int, w: int)
    requires Covers(a, percentage, v) && Covers(b, percentage, w)
    ensures Covers(a + b, percentage, Max(v, w))
  {
    CountBounds(a, v, Max(v, w));
    CountBounds(b, w, Max(v, w));
    SumByConcat(AtMost(Max(v, w)), a, b);
    assert |a + b| * percentage == |a| * percentage + |b| * percentage;
  }

  lemma SumConcat(a: seq<nat>, b: seq<nat>)
    ensures Sum(a + b) == Sum(a) + Sum(b)
  {
    SumIsSumBy(a);
    SumIsSumBy(b);
    SumIsSumBy(a + b);
    SumByConcat(Itself(), a, b);
  }

  lemma MergeStaysCautious(c: Distribution, a: seq<nat>, d: Distribution, b: seq<nat>)
    requires a != [] && b != [] && Cautious(c, a) && Cautious(d, b)
    ensures Cautious(MergeDistribution(c, d, |a|, |b|), a + b)
  {
    CoversBoth(a, b, 50, c.p50, d.p50);
    CoversBoth(a, b, 95, c.p95, d.p95);
    CoversBoth(a, b, 99, c.p99, d.p99);
    SumConcat(a, b);
    MergedMean(c.avg, |a|, Sum(a), d.avg, |b|, Sum(b));
  }

  lemma LowerMean(low: nat, mean: nat, n: nat, sum: nat)
    requires BelowMean(low, n, sum) && IsMean(mean, n, sum)
    ensures low <= mean
  {
    if mean < low {
      MultiplyMonotone(mean + 1, low, n);
      assert false;
    }
  }

  lemma MultiplyMonotone(x: nat, y: nat, n: nat)
    requires x <= y
    ensures x * n <= y * n
  {
  }

  lemma MergedMean(a: nat, m: nat, sum: nat, b: nat, n: nat, sum': nat)
    requires m + n > 0 && BelowMean(a, m, sum) && BelowMean(b, n, sum')
    ensures BelowMean(Quotient(a * m + b * n, m + n), m + n, sum + sum')
  {
  }

  /** A cautious summary never under-reports what the pooled values would show. */
  lemma CautiousBounds(d: Distribution, values: seq<nat>)
    requires values != [] && Cautious(d, values)
    ensures var exact := DistributionOf(values);
            && d.min == exact.min && d.max == exact.max && d.avg <= exact.avg
            && exact.p50 <= d.p50 && exact.p95 <= d.p95 && exact.p99 <= d.p99
  {
    var exact := DistributionOf(values);
    DistributionExtremes(values, d.min);
    DistributionExtremes(values, d.max);
    DistributionPercentiles(values, d.p50);
    DistributionPercentiles(values, d.p95);
    DistributionPercentiles(values, d.p99);
    DistributionMean(values);
    LowerMean(d.avg, exact.avg, |values|, Sum(values));
  }

  /** Part by part: each distribution is cautious about a non-empty list, and weighted by its length. */
  ghost predicate CautiousParts(parts: seq<Weighted>, lists: seq<seq<nat>>)
  {
    && |parts| == |lists|
    && forall i :: 0 <= i < |parts| ==>
         parts[i].weight == |lists[i]| > 0 && Cautious(parts[i].distribution, lists[i])
  }

  lemma {:induction false} WeightOfParts(parts: seq<Weighted>, lists: seq<seq<nat>>)
    requires CautiousParts(parts, lists)
    ensures TotalWeight(parts) == |Flatten(lists)|
  {
    if parts != [] {
      var n := |parts| - 1;
      WeightOfParts(parts[..n], lists[..n]);
    }
  }

  lemma {:induction false} FallbackIsCautious(parts: seq<Weighted>, lists: seq<seq<nat>>)
    requires parts != [] && CautiousParts(parts, lists)
    ensures Flatten(lists) != [] && Cautious(MergeInOrder(parts), Flatten(lists))
  {
    var n := |parts| - 1;
    WeightOfParts(parts[..n], lists[..n]);
    if n == 0 {
      assert lists == [] + [lists[0]];
      FlattenSnoc([], lists[0]);
      assert Flatten(lists) == lists[0];
    } else {
      FallbackIsCautious(parts[..n], lists[..n]);
      MergeStaysCautious(MergeInOrder(parts[..n]), Flatten(lists[..n]), parts[n].distribution, lists[n]);
    }
  }

  /** The worst-shard fallback: however the samples were spread over shards, and in whatever order the shards'
      own distributions are merged, weighted by how many values each one has, the result has the exact minimum
      and maximum of the pooled samples, never a lower percentile and never a higher mean. */
  lemma FallbackNeverUnderReports(parts: seq<Weighted>, lists: seq<seq<nat>>)
    requires parts != [] && |parts| == |lists|
    requires forall i :: 0 <= i < |parts| ==>
               lists[i] != [] && parts[i] == Weighted(DistributionOf(lists[i]), |lists[i]|)
    ensures var merged, exact := MergeInOrder(parts), DistributionOf(Flatten(lists));
            && merged.min == exact.min && merged.max == exact.max && merged.avg <= exact.avg
            && exact.p50 <= merged.p50 && exact.p95 <= merged.p95 && exact.p99 <= merged.p99
  {
    forall i | 0 <= i < |parts| ensures Cautious(parts[i].distribution, lists[i]) {
      OwnDistributionIsCautious(lists[i]);
    }
    FallbackIsCautious(parts, lists);
    CautiousBounds(MergeInOrder(parts), Flatten(lists));
  }

  // ----- shards of any weight

  /** `d` is exact about the maximum of `values`, and high on its percentiles; an empty list has the maximum 0. */
  ghost predicate Overestimates(d: Distribution, values: seq<nat>)
  {
    && Covers(values, 50, d.p50) && Covers(values, 95, d.p95) && Covers(values, 99, d.p99)
    && (if values == [] then d.max == 0 else d.max in values) && forall x :: x in values ==> x <= d.max
  }

  lemma OwnOverestimates(values: seq<nat>)
    ensures Overestimates(DistributionOf(values), values)
  {
    if values != [] {
      var d := DistributionOf(values);
      forall x | x in values ensures x <= d.max { DistributionExtremes(values, x); }
      DistributionExtremes(values, 0);
      DistributionPercentiles(values, d.p50);
      DistributionPercentiles(values, d.p95);
      DistributionPercentiles(values, d.p99);
      hide DistributionOf;
    }
  }

  lemma MergeOverestimates(c: Distribution, a: seq<nat>, m: nat, d: Distribution, b: seq<nat>, n: nat)
    requires Overestimates(c, a) && Overestimates(d, b) && (m == 0 ==> a == [])
    ensures Overestimates(MergeDistribution(c, d, m, n), a + b)
  {
    if m == 0 {
      assert a + b == b;
    } else {
      hide Covers, Quotient;
      CoversBoth(a, b, 50, c.p50, d.p50);
      CoversBoth(a, b, 95, c.p95, d.p95);
      CoversBoth(a, b, 99, c.p99, d.p99);
    }
  }

  lemma OverestimateBounds(d: Distribution, values: seq<nat>)
    requires Overestimates(d, values)
    ensures var exact := DistributionOf(values);
            d.max == exact.max && exact.p50 <= d.p50 && exact.p95 <= d.p95 && exact.p99 <= d.p99
  {
    if values != [] {
      DistributionExtremes(values, d.max);
      DistributionPercentiles(values, d.p50);
      DistributionPercentiles(values, d.p95);
      DistributionPercentiles(values, d.p99);
      hide DistributionOf;
    }
  }

  /** Part by part: the distribution of a list, possibly empty, with any weight above 0. */
  ghost predicate WeighedParts(parts: seq<Weighted>, lists: seq<seq<nat>>)
  {
    && |parts| == |lists|
    && forall i :: 0 <= i < |parts| ==> parts[i].weight > 0 && parts[i].distribution == DistributionOf(lists[i])
  }

  lemma {:induction false} PositiveWeight(parts: seq<Weighted>)
    requires parts != [] && forall i :: 0 <= i < |parts| ==> parts[i].weight > 0
    ensures TotalWeight(parts) > 0
  {
  }

  lemma {:induction false} PartsOverestimate(parts: seq<Weighted>, lists: seq<seq<nat>>)
    requires WeighedParts(parts, lists)
    ensures Overestimates(MergeInOrder(parts), Flatten(lists))
  {
    if parts != [] {
      var n := |parts| - 1;
      PartsOverestimate(parts[..n], lists[..n]);
      OwnOverestimates(lists[n]);
      if n > 0 { PositiveWeight(parts[..n]); }
      MergeOverestimates(MergeInOrder(parts[..n]), Flatten(lists[..n]), TotalWeight(parts[..n]),
                         parts[n].distribution, lists[n], parts[n].weight);
    }
  }

  /** `least` is the minimum of a list, 0 of an empty one. */
  predicate IsLeast(least: nat, values: seq<nat>)
  {
    if values == [] then least == 0 else least in values && forall x :: x in values ==> least <= x
  }

  lemma OwnLeast(values: seq<nat>)
    ensures IsLeast(DistributionOf(values).min, values)
  {
    forall x | x in values ensures DistributionOf(values).min <= x { DistributionExtremes(values, x); }
    if values != [] { DistributionExtremes(values, 0); }
    hide DistributionOf;
  }

  lemma LeastOfBoth(x: nat, a: seq<nat>, y: nat, b: seq<nat>)
    requires a != [] && b != [] && IsLeast(x, a) && IsLeast(y, b)
    ensures IsLeast(Min(x, y), a + b)
  {
  }

  lemma LastPart(parts: seq<Weighted>)
    requires parts != [] && forall i :: 0 <= i < |parts| ==> parts[i].weight > 0
    ensures var n := |parts| - 1;
            MergeInOrder(parts).min
            == if n == 0 then parts[0].distribution.min
               else Min(MergeInOrder(parts[..n]).min, parts[n].distribution.min)
  {
    hide Quotient;
    var n := |parts| - 1;
    if n > 0 { PositiveWeight(parts[..n]); }
  }

  /** Some list is empty. */
  predicate AnyEmpty(lists: seq<seq<nat>>)
  {
    lists != [] && (AnyEmpty(lists[..|lists| - 1]) || lists[|lists| - 1] == [])
  }

  lemma FlattenNotEmpty(lists: seq<seq<nat>>)
    requires lists != [] && !AnyEmpty(lists)
    ensures Flatten(lists) != []
  {
  }

  lemma AnyEmptySnoc(lists: seq<seq<nat>>, last: seq<nat>)
    ensures AnyEmpty(lists + [last]) <==> AnyEmpty(lists) || last == []
  {
    assert (lists + [last])[..|lists|] == lists;
  }

  /** `least` is what merging gives as the minimum of these lists: 0 as soon as one of them is empty. */
  predicate Lowest(least: nat, lists: seq<seq<nat>>)
  {
    if AnyEmpty(lists) then least == 0 else IsLeast(least, Flatten(lists))
  }

  lemma NothingLowest(parts: seq<Weighted>, lists: seq<seq<nat>>)
    requires parts == [] && lists == []
    ensures Lowest(MergeInOrder(parts).min, lists)
  {
  }

  lemma OneLowest(least: nat, lists: seq<seq<nat>>)
    requires |lists| == 1 && IsLeast(least, lists[0])
    ensures Lowest(least, lists)
  {
    FlattenLast(lists);
    assert lists[..|lists| - 1] == [];
    assert Flatten(lists) == lists[0];
    assert !AnyEmpty(lists[..|lists| - 1]);
    assert AnyEmpty(lists) == (lists[0] == []);
  }

  lemma LowestLast(least: nat, lists: seq<seq<nat>>, own: nat)
    requires |lists| > 1 && Lowest(least, lists[..|lists| - 1]) && IsLeast(own, lists[|lists| - 1])
    ensures Lowest(Min(least, own), lists)
  {
    var before, values := lists[..|lists| - 1], lists[|lists| - 1];
    FlattenLast(lists);
    if !AnyEmpty(before) && values != [] {
      FlattenNotEmpty(before);
      LeastOfBoth(least, Flatten(before), own, values);
    }
  }

  /** One part without values pulls the merged minimum down to 0; otherwise it is the minimum of all values. */
  lemma {:induction false} PartsLeast(parts: seq<Weighted>, lists: seq<seq<nat>>)
    requires WeighedParts(parts, lists)
    ensures Lowest(MergeInOrder(parts).min, lists)
  {
    if parts == [] {
      NothingLowest(parts, lists);
    } else {
      hide DistributionOf, MergeInOrder, IsLeast, Lowest;
      var n := |parts| - 1;
      PartsLeast(parts[..n], lists[..n]);
      OwnLeast(lists[n]);
      LastPart(parts);
      if n > 0 {
        LowestLast(MergeInOrder(parts[..n]).min, lists, parts[n].distribution.min);
      } else {
        assert lists[n] == lists[0];
        OneLowest(MergeInOrder(parts).min, lists);
      }
    }
  }

  lemma LeastIsUnique(a: nat, b: nat, values: seq<nat>)
    requires IsLeast(a, values) && IsLeast(b, values)
    ensures a == b
  {
  }
}
