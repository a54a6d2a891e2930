/** What map order can change in a merged result, and when it cannot: the mean of the sample-less fallback, and the
    generator delay (internal/store/store.go, `mergeDistribution`). */
module MergeOrder {
  import opened Core
  import opened Folds
  import opened OrderStatistics
  import opened TimelineMerge
  import opened ShardMerge
  import opened MergeProperties

  // ----- parts

  /** A shard's own distribution as a list of at most one. */
  function PartOf(metric: Metric): RunResult -> seq<Weighted>
  {
    (r: RunResult) => if WeightOf(r) == 0 then [] else [Weighted(metric.Of(r), WeightOf(r))]
  }

  lemma {:induction false} PartsAreFlat(metric: Metric, rs: seq<RunResult>)
    ensures Parts(metric, rs) == Flatten(Map(PartOf(metric), rs))
    ensures forall i :: 0 <= i < |Parts(metric, rs)| ==> Parts(metric, rs)[i].weight > 0
  {
    if rs != [] {
      hide WeightOf;
      var n := |rs| - 1;
      PartsAreFlat(metric, rs[..n]);
      assert rs == rs[..n] + [rs[n]];
      MapSnoc(PartOf(metric), rs[..n], rs[n]);
      FlattenSnoc(Map(PartOf(metric), rs[..n]), PartOf(metric)(rs[n]));
    }
  }

  lemma PartsPermutation(metric: Metric, a: seq<RunResult>, b: seq<RunResult>)
    requires multiset(a) == multiset(b)
    ensures multiset(Parts(metric, a)) == multiset(Parts(metric, b))
  {
    PartsAreFlat(metric, a);
    PartsAreFlat(metric, b);
    MapPermutation(PartOf(metric), a, b);
    FlattenPermutation(Map(PartOf(metric), a), Map(PartOf(metric), b));
  }

  lemma OnePart(x: Weighted)
    ensures MergeInOrder([x]) == x.distribution && TotalWeight([x]) == x.weight
  {
    MergeInOrderSnoc([], x);
    assert [] + [x] == [x];
  }

  lemma TwoParts(x: Weighted, y: Weighted)
    requires x.weight > 0 && y.weight > 0
    ensures MergeInOrder([x, y]) == MergeInOrder([y, x])
  {
    OnePart(x);
    OnePart(y);
    MergeInOrderSnoc([x], y);
    MergeInOrderSnoc([y], x);
    assert [x] + [y] == [x, y] && [y] + [x] == [y, x];
    hide MergeInOrder, TotalWeight;
    QuotientOfSame(x.distribution.avg * x.weight + y.distribution.avg * y.weight,
                   y.distribution.avg * y.weight + x.distribution.avg * x.weight, x.weight + y.weight);
  }

  lemma QuotientOfSame(m: nat, n: nat, d: nat)
    requires d > 0 && m == n
    ensures Quotient(m, d) == Quotient(n, d)
  {
  }

  lemma UpToTwoParts(a: seq<Weighted>, b: seq<Weighted>)
    requires |a| <= 2 && multiset(a) == multiset(b) && forall i :: 0 <= i < |a| ==> a[i].weight > 0
    ensures MergeInOrder(a) == MergeInOrder(b)
  {
    assert |multiset(a)| == |multiset(b)|;
    if |a| == 0 {
      assert a == b;
    } else if |a| == 1 {
      assert a == [a[0]];
      assert b[0] in multiset(a);
      assert a == b;
    } else {
      assert a == [a[0], a[1]] && b == [b[0], b[1]];
      assert b[0] in multiset(a) && b[1] in multiset(a);
      assert a[0] in multiset(b) && a[1] in multiset(b);
      hide MergeInOrder;
      TwoParts(a[0], a[1]);
      assert b == a || b == [a[1], a[0]];
    }
  }

  // ----- the mean of three

  /** A report without samples about a single request that went out `v` milliseconds late and took as long. */
  function SingleReport(v: nat): RunResult
  {
    var d := Distribution(v, v, v, v, v, v);
    NO_RESULT.(counts := ZERO_COUNTS.(issued := 1, successes := 1, completed := 1, total := 1), latency := d, ttft := d,
               ttfo := d, itl := d, tpot := d, generatorDelay := d)
  }

  function Single(v: nat): Weighted { Weighted(Distribution(v, v, v, v, v, v), 1) }

  function Reports(values: seq<nat>): seq<RunResult>
  {
    seq(|values|, i requires 0 <= i < |values| => SingleReport(values[i]))
  }

  function Singles(values: seq<nat>): seq<Weighted>
  {
    seq(|values|, i requires 0 <= i < |values| => Single(values[i]))
  }

  lemma {:induction false} PartsOfReports(metric: Metric, values: seq<nat>)
    ensures Parts(metric, Reports(values)) == Singles(values)
  {
    if values != [] {
      var n := |values| - 1;
      PartsOfReports(metric, values[..n]);
      assert Reports(values)[..n] == Reports(values[..n]);
      assert WeightOf(SingleReport(values[n])) == 1
          && metric.Of(SingleReport(values[n])) == Single(values[n]).distribution;
      assert Singles(values) == Singles(values[..n]) + [Single(values[n])];
    }
  }

  lemma {:induction false} SinglesWeight(values: seq<nat>)
    ensures TotalWeight(Singles(values)) == |values|
  {
    if values != [] {
      var n := |values| - 1;
      SinglesWeight(values[..n]);
      assert Singles(values) == Singles(values[..n]) + [Single(values[n])];
      MergeInOrderSnoc(Singles(values[..n]), Single(values[n]));
    }
  }

  function Zeros(n: nat): seq<nat> { seq(n, _ => 0) }

  lemma SinglesSnoc(values: seq<nat>, v: nat)
    requires values != []
    ensures MergeInOrder(Singles(values + [v])).avg
         == Quotient(MergeInOrder(Singles(values)).avg * |values| + v, |values| + 1)
  {
    SinglesWeight(values);
    assert Singles(values + [v]) == Singles(values) + [Single(v)];
    MergeInOrderSnoc(Singles(values), Single(v));
    hide MergeInOrder, TotalWeight;
  }

  lemma {:induction false} ZerosMean(n: nat)
    requires n >= 1
    ensures MergeInOrder(Singles(Zeros(n))).avg == 0
  {
    if n == 1 {
      assert Singles(Zeros(1)) == [Single(0)];
      OnePart(Single(0));
    } else {
      ZerosMean(n - 1);
      assert Zeros(n) == Zeros(n - 1) + [0];
      SinglesSnoc(Zeros(n - 1), 0);
    }
  }

  /** Rounding down after every shard loses more and more of a value that comes first. */
  lemma {:induction false} FirstFades(v: nat, n: nat)
    ensures MergeInOrder(Singles([v] + Zeros(n))).avg * (n + 1) <= v
  {
    if n == 0 {
      assert Singles([v] + Zeros(0)) == [Single(v)];
      OnePart(Single(v));
    } else {
      FirstFades(v, n - 1);
      assert [v] + Zeros(n) == ([v] + Zeros(n - 1)) + [0];
      SinglesSnoc([v] + Zeros(n - 1), 0);
    }
  }

  lemma LastCounts(n: nat)
    requires n >= 3
    ensures MergeInOrder(Singles(Zeros(n - 1) + [n])).avg == 1
  {
    hide MergeInOrder, Singles;
    ZerosMean(n - 1);
    SinglesSnoc(Zeros(n - 1), n);
    QuotientOne(n);
  }

  lemma QuotientOne(n: nat)
    requires n > 0
    ensures Quotient(0 * (n - 1) + n, (n - 1) + 1) == 1
  {
  }

  lemma QuotientNone(m: nat, d: nat)
    requires m < d
    ensures Quotient(m, d) == 0
  {
  }

  lemma FirstDoesNot(n: nat)
    requires n >= 3
    ensures MergeInOrder(Singles([n] + Zeros(n - 1))).avg == 0
  {
    hide MergeInOrder, Singles;
    FirstFades(n, n - 2);
    var before := MergeInOrder(Singles([n] + Zeros(n - 2))).avg;
    assert before < 2 by { if before >= 2 { MultiplyMonotone(2, before, n - 1); } }
    assert [n] + Zeros(n - 1) == ([n] + Zeros(n - 2)) + [0];
    SinglesSnoc([n] + Zeros(n - 2), 0);
    assert before * (n - 1) <= n - 1;
    QuotientNone(before * (n - 1) + 0, (n - 1) + 1);
  }

  lemma MovedFirst(n: nat, v: nat)
    ensures multiset(Reports([v] + Zeros(n))) == multiset(Reports(Zeros(n) + [v]))
  {
    assert Reports([v] + Zeros(n)) == [SingleReport(v)] + Reports(Zeros(n));
    assert Reports(Zeros(n) + [v]) == Reports(Zeros(n)) + [SingleReport(v)];
  }

  lemma MeanOfReports(config: RunConfig, values: seq<nat>, metric: Metric)
    ensures metric.Of(Merged(config, Reports(values))) == MergeInOrder(Singles(values))
  {
    PartsOfReports(metric, values);
    hide Merged, MergeInOrder, Parts;
    MergedFallback(config, Reports(values), metric);
  }

  // ----- the fallback

  /** For every number of shards from three on there is a run whose merged mean depends on the order of its shards: all
      but one took no time, and it matters whether the other one comes first or last. */
  lemma FallbackMeanDependsOnOrder(config: RunConfig, n: nat, metric: Metric)
    requires n >= 3
    ensures var first, last := Reports([n] + Zeros(n - 1)), Reports(Zeros(n - 1) + [n]);
            && multiset(first) == multiset(last)
            && metric.Of(Merged(config, first)).avg == 0 && metric.Of(Merged(config, last)).avg == 1
  {
    hide Merged, MergeInOrder, Reports, Singles;
    FirstDoesNot(n);
    LastCounts(n);
    MovedFirst(n - 1, n);
    MeanOfReports(config, [n] + Zeros(n - 1), metric);
    MeanOfReports(config, Zeros(n - 1) + [n], metric);
  }

  /** A run of `n` shards that measured something, none of which sent samples. */
  ghost predicate Sampleless(rs: seq<RunResult>, metric: Metric, n: nat)
  {
    |Parts(metric, rs)| == n && forall i :: 0 <= i < |rs| ==> rs[i].samples.None?
  }

  /** Whatever such shards report, every order gives the same distribution. */
  ghost predicate MeanSettled(config: RunConfig, metric: Metric, n: nat)
  {
    forall a: seq<RunResult>, b: seq<RunResult> ::
      Sampleless(a, metric, n) && Sampleless(b, metric, n) && multiset(a) == multiset(b)
      ==> metric.Of(Merged(config, a)) == metric.Of(Merged(config, b))
  }

  /** Without samples the merged distribution is independent of map order for any reports if and only if at most two of
      the shards measured something. */
  lemma FallbackSettledUpToTwo(config: RunConfig, metric: Metric, n: nat)
    ensures MeanSettled(config, metric, n) <==> n <= 2
  {
    hide Merged, Parts, MergeInOrder;
    if n <= 2 {
      forall a: seq<RunResult>, b: seq<RunResult>
        | Sampleless(a, metric, n) && Sampleless(b, metric, n) && multiset(a) == multiset(b)
        ensures metric.Of(Merged(config, a)) == metric.Of(Merged(config, b))
      {
        MergedFallback(config, a, metric);
        MergedFallback(config, b, metric);
        PartsPermutation(metric, a, b);
        PartsAreFlat(metric, a);
        UpToTwoParts(Parts(metric, a), Parts(metric, b));
      }
    } else {
      var first, last := Reports([n] + Zeros(n - 1)), Reports(Zeros(n - 1) + [n]);
      FallbackMeanDependsOnOrder(config, n, metric);
      PartsOfReports(metric, [n] + Zeros(n - 1));
      PartsOfReports(metric, Zeros(n - 1) + [n]);
      assert Sampleless(first, metric, n) && Sampleless(last, metric, n);
    }
  }

  // ----- the generator delay

  /** How late a shard's requests went out, which counts for the requests that finished. */
  function DelayPart(): RunResult -> Weighted { (r: RunResult) => Weighted(r.generatorDelay, r.counts.total) }

  function DelayParts(rs: seq<RunResult>): seq<Weighted> { Map(DelayPart(), rs) }

  lemma {:induction false} DelayAccumulated(rs: seq<RunResult>)
    ensures var acc := FoldLeft(Accumulate, START, rs);
            acc.generatorDelay == MergeInOrder(DelayParts(rs)) && acc.generatorWeight == TotalWeight(DelayParts(rs))
  {
    if rs == [] {
      assert DelayParts(rs) == [];
    } else {
      hide MergeInOrder, TotalWeight, MergeDistribution, AddTally, AddFallback, AddScenario, AppendSamples;
      var n := |rs| - 1;
      DelayAccumulated(rs[..n]);
      assert rs == rs[..n] + [rs[n]];
      MapSnoc(DelayPart(), rs[..n], rs[n]);
      MergeInOrderSnoc(DelayParts(rs[..n]), DelayPart()(rs[n]));
    }
  }

  /** The generator delay is always merged part by part, samples or not. */
  lemma MergedDelay(config: RunConfig, rs: seq<RunResult>)
    ensures Merged(config, rs).generatorDelay == MergeInOrder(DelayParts(rs))
  {
    hide MergeInOrder, Accumulate, MergedTimeline, FinishScenarios, Summarize;
    DelayAccumulated(rs);
  }

  /** Runs of `n` shards, on each of which something finished if `finishing`. */
  ghost predicate ShardsOf(rs: seq<RunResult>, n: nat, finishing: bool)
  {
    |rs| == n && (finishing ==> forall i :: 0 <= i < n ==> rs[i].counts.total > 0)
  }

  /** Whatever such shards report, every order gives the same generator delay. */
  ghost predicate DelaySettled(config: RunConfig, n: nat, finishing: bool)
  {
    forall a: seq<RunResult>, b: seq<RunResult> ::
      ShardsOf(a, n, finishing) && ShardsOf(b, n, finishing) && multiset(a) == multiset(b)
      ==> Merged(config, a).generatorDelay == Merged(config, b).generatorDelay
  }

  lemma DelayOfReports(config: RunConfig, values: seq<nat>)
    ensures Merged(config, Reports(values)).generatorDelay == MergeInOrder(Singles(values))
  {
    hide Merged, MergeInOrder;
    MergedDelay(config, Reports(values));
    assert DelayParts(Reports(values)) == Singles(values);
  }

  lemma FinishedUpToTwo(config: RunConfig, a: seq<RunResult>, b: seq<RunResult>)
    requires ShardsOf(a, |a|, true) && |a| <= 2 && multiset(a) == multiset(b)
    ensures Merged(config, a).generatorDelay == Merged(config, b).generatorDelay
  {
    hide Merged, MergeInOrder;
    MergedDelay(config, a);
    MergedDelay(config, b);
    MapPermutation(DelayPart(), a, b);
    UpToTwoParts(DelayParts(a), DelayParts(b));
  }

  lemma SingleShard(a: seq<RunResult>, b: seq<RunResult>)
    requires |a| <= 1 && multiset(a) == multiset(b)
    ensures a == b
  {
    assert |multiset(a)| == |multiset(b)|;
    if |a| == 1 {
      assert a == [a[0]] && b == [b[0]];
      assert b[0] in multiset(a);
    }
  }

  lemma DelayOfThree(config: RunConfig, n: nat)
    requires n >= 3
    ensures !DelaySettled(config, n, true) && !DelaySettled(config, n, false)
  {
    hide Merged, MergeInOrder, Singles;
    var first, last := Reports([n] + Zeros(n - 1)), Reports(Zeros(n - 1) + [n]);
    FirstDoesNot(n);
    LastCounts(n);
    MovedFirst(n - 1, n);
    DelayOfReports(config, [n] + Zeros(n - 1));
    DelayOfReports(config, Zeros(n - 1) + [n]);
    assert ShardsOf(first, n, true) && ShardsOf(last, n, true);
  }

  /** A shard whose one request went out a millisecond late and was then cancelled. */
  const IDLE_REPORT :=
    NO_RESULT.(counts := ZERO_COUNTS.(issued := 1, cancelled := 1), generatorDelay := Distribution(1, 1, 1, 1, 1, 1))

  /** On two shards, one of which finished nothing: what it says is dropped when it comes first, and kept otherwise. */
  lemma DelayOfTwo(config: RunConfig)
    ensures !DelaySettled(config, 2, false)
  {
    hide Merged, MergeInOrder;
    var on, off := SingleReport(0), IDLE_REPORT;
    MergedDelay(config, [off, on]);
    MergedDelay(config, [on, off]);
    assert DelayParts([off, on]) == [DelayPart()(off), DelayPart()(on)];
    assert DelayParts([on, off]) == [DelayPart()(on), DelayPart()(off)];
    TwoDelays();
    assert ShardsOf([off, on], 2, false) && ShardsOf([on, off], 2, false);
    assert multiset([off, on]) == multiset([on, off]);
  }

  lemma TwoDelays()
    ensures var on, off := DelayPart()(SingleReport(0)), DelayPart()(IDLE_REPORT);
            MergeInOrder([off, on]).max == 0 && MergeInOrder([on, off]).max == 1
  {
    var on, off := DelayPart()(SingleReport(0)), DelayPart()(IDLE_REPORT);
    OnePart(on);
    OnePart(off);
    MergeInOrderSnoc([off], on);
    MergeInOrderSnoc([on], off);
    assert [off] + [on] == [off, on] && [on] + [off] == [on, off];
    hide MergeInOrder, Quotient;
  }

  /** The merged generator delay is independent of map order for any reports if and only if there is one shard, and for
      shards on each of which something finished if and only if there are at most two. */
  lemma DelaySettledUpToTwo(config: RunConfig, n: nat)
    ensures DelaySettled(config, n, true) <==> n <= 2
    ensures DelaySettled(config, n, false) <==> n <= 1
  {
    hide Merged;
    if n <= 2 {
      forall a: seq<RunResult>, b: seq<RunResult>
        | ShardsOf(a, n, true) && ShardsOf(b, n, true) && multiset(a) == multiset(b)
        ensures Merged(config, a).generatorDelay == Merged(config, b).generatorDelay
      {
        FinishedUpToTwo(config, a, b);
      }
    } else {
      DelayOfThree(config, n);
    }
    if n <= 1 {
      forall a: seq<RunResult>, b: seq<RunResult>
        | ShardsOf(a, n, false) && ShardsOf(b, n, false) && multiset(a) == multiset(b)
        ensures Merged(config, a).generatorDelay == Merged(config, b).generatorDelay
      {
        SingleShard(a, b);
      }
    } else if n == 2 {
      DelayOfTwo(config);
    }
  }
}
