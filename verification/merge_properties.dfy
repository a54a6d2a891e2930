/** What a merged result says about the shards it was merged from, and that it does not matter in which order a Go map
    yields them. */
module MergeProperties {
  import opened Core
  import opened Folds
  import opened OrderStatistics
  import opened TimelineMerge
  import opened ShardMerge
  import Sweep

  // ----- the accumulator, part by part

  /** The five measured latencies that are pooled across shards. */
  datatype Metric = Latency | Ttft | Ttfo | Itl | Tpot
  {
    function From(s: RunSamples): seq<nat>
    {
      match this
      case Latency => s.latency
      case Ttft => s.ttft
      case Ttfo => s.ttfo
      case Itl => s.itl
      case Tpot => s.tpot
    }

    function Samples(): RunResult -> seq<nat> { (r: RunResult) => From(SamplesOf(r)) }

    function Of(r: RunResult): Distribution
    {
      match this
      case Latency => r.latency
      case Ttft => r.ttft
      case Ttfo => r.ttfo
      case Itl => r.itl
      case Tpot => r.tpot
    }

    function In(f: Fallback): Distribution
    {
      match this
      case Latency => f.latency
      case Ttft => f.ttft
      case Ttfo => f.ttfo
      case Itl => f.itl
      case Tpot => f.tpot
    }
  }

  /** All samples of one metric that the shards sent, one shard after the other. */
  function Pooled(metric: Metric, rs: seq<RunResult>): seq<nat>
  {
    Flatten(Map(metric.Samples(), rs))
  }

  function TallyOf(rs: seq<RunResult>): Tally { FoldLeft(AddTally, NO_TALLY, rs) }
  function FallbackOf(rs: seq<RunResult>): Fallback { FoldLeft(AddFallback, NO_FALLBACK, rs) }

  function ScenariosOf(): RunResult -> seq<ScenarioResult> { (r: RunResult) => r.scenarios }

  /** Every scenario result any of the shards reported. */
  function AllScenarios(rs: seq<RunResult>): seq<ScenarioResult> { Flatten(Map(ScenariosOf(), rs)) }

  lemma PooledSnoc(metric: Metric, rs: seq<RunResult>, r: RunResult)
    ensures Pooled(metric, rs + [r]) == Pooled(metric, rs) + metric.From(SamplesOf(r))
  {
    MapSnoc(metric.Samples(), rs, r);
    FlattenSnoc(Map(metric.Samples(), rs), metric.From(SamplesOf(r)));
  }

  lemma AllScenariosLast(rs: seq<RunResult>)
    requires rs != []
    ensures AllScenarios(rs) == AllScenarios(rs[..|rs| - 1]) + rs[|rs| - 1].scenarios
  {
    var n := |rs| - 1;
    assert rs == rs[..n] + [rs[n]];
    MapSnoc(ScenariosOf(), rs[..n], rs[n]);
    FlattenSnoc(Map(ScenariosOf(), rs[..n]), rs[n].scenarios);
  }

  lemma NothingAccumulated(rs: seq<RunResult>, metric: Metric)
    requires rs == []
    ensures var acc := FoldLeft(Accumulate, START, rs);
            && acc == START && acc.tally == TallyOf(rs) && acc.fallback == FallbackOf(rs)
            && metric.From(acc.pooled) == Pooled(metric, rs) && AllScenarios(rs) == []
  {
    assert Map(metric.Samples(), rs) == [] && Map(ScenariosOf(), rs) == [];
  }

  lemma {:induction false} AccumulatorParts(rs: seq<RunResult>, metric: Metric)
    ensures var acc := FoldLeft(Accumulate, START, rs);
            && acc.tally == TallyOf(rs) && acc.fallback == FallbackOf(rs)
            && metric.From(acc.pooled) == Pooled(metric, rs)
            && acc.scenarios == FoldLeft(AddScenario, NO_SCENARIOS, AllScenarios(rs))
  {
    hide AddTally, AddFallback, AddScenario, MergeDistribution, Pooled, AllScenarios;
    if rs == [] {
      NothingAccumulated(rs, metric);
    } else {
      var n := |rs| - 1;
      AccumulatorParts(rs[..n], metric);
      assert rs == rs[..n] + [rs[n]];
      PooledSnoc(metric, rs[..n], rs[n]);
      AllScenariosLast(rs);
      FoldConcat(AddScenario, NO_SCENARIOS, AllScenarios(rs[..n]), rs[n].scenarios);
    }
  }

  /** The fields of a merged result that come straight from the tally. */
  lemma MergedTally(config: RunConfig, rs: seq<RunResult>)
    ensures var m, t := Merged(config, rs), TallyOf(rs);
            && m.counts == t.counts && m.statusCounts == t.statusCounts
            && m.goodputPercent == PerRequest(t.goodput, t.counts.total)
            && m.completionPercent == Percent(t.counts.completed, t.counts.issued)
  {
    hide Accumulate, TallyOf, Summarize, FinishScenarios, MergedTimeline, Percent, PerRequest, PerSecond;
    AccumulatorParts(rs, Latency);
  }

  // ----- counters are sums

  /** Every counter the controller adds up. */
  datatype Counter =
    | Successes | Failures | Total | Dropped | Sessions | CompletedSessions | Issued | Completed | Cancelled
    | HttpFailures | TransportErrors | SteadySamples | MissingUsage | ContentChunks | PromptTokens
    | CompletionTokens | ReasoningTokens | Status(code: int)
  {
    function In(counts: Counts, statusCounts: map<int, nat>): int
    {
      match this
      case Successes => counts.successes
      case Failures => counts.failures
      case Total => counts.total
      case Dropped => counts.dropped
      case Sessions => counts.sessions
      case CompletedSessions => counts.completedSessions
      case Issued => counts.issued
      case Completed => counts.completed
      case Cancelled => counts.cancelled
      case HttpFailures => counts.httpFailures
      case TransportErrors => counts.transportErrors
      case SteadySamples => counts.steadySamples
      case MissingUsage => counts.missingUsage
      case ContentChunks => counts.contentChunks
      case PromptTokens => counts.promptTokens
      case CompletionTokens => counts.completionTokens
      case ReasoningTokens => counts.reasoningTokens
      case Status(code) => StatusCount(statusCounts, code)
    }

    function Read(): RunResult -> int { (r: RunResult) => In(r.counts, r.statusCounts) }
  }

  lemma TallyCounts(t: Tally, r: RunResult, counter: Counter)
    ensures var t' := AddTally(t, r);
            counter.In(t'.counts, t'.statusCounts) == counter.In(t.counts, t.statusCounts) + counter.Read()(r)
  {
  }

  lemma {:induction false} TallyIsSum(rs: seq<RunResult>, counter: Counter)
    ensures counter.In(TallyOf(rs).counts, TallyOf(rs).statusCounts) == SumBy(counter.Read(), rs)
  {
    if rs != [] {
      hide AddTally;
      var n := |rs| - 1;
      TallyIsSum(rs[..n], counter);
      TallyCounts(TallyOf(rs[..n]), rs[n], counter);
      assert rs == rs[..n] + [rs[n]];
      SumBySnoc(counter.Read(), rs[..n], rs[n]);
    }
  }

  /** Merging conserves: every counter and every status count of the merged result is the sum over the shards. */
  lemma MergingConserves(config: RunConfig, rs: seq<RunResult>, counter: Counter)
    ensures counter.Read()(Merged(config, rs)) == SumBy(counter.Read(), rs)
  {
    hide Merged;
    MergedTally(config, rs);
    TallyIsSum(rs, counter);
  }

  lemma {:induction false} BalancedSum(rs: seq<RunResult>)
    requires forall i :: 0 <= i < |rs| ==> Balanced(rs[i].counts)
    ensures Balanced(TallyOf(rs).counts)
  {
    if rs != [] { BalancedSum(rs[..|rs| - 1]); }
  }

  /** The request accounting rule carries over from the shards to the run. */
  lemma MergedBalance(config: RunConfig, rs: seq<RunResult>)
    requires forall i :: 0 <= i < |rs| ==> Balanced(rs[i].counts)
    ensures Balanced(Merged(config, rs).counts)
  {
    hide Merged;
    MergedTally(config, rs);
    BalancedSum(rs);
  }

  // ----- goodput

  /** A shard's goodput percentage, as an agent computes it from the requests that met every SLO. */
  ghost predicate GoodputOf(r: RunResult, met: nat)
  {
    && met <= r.counts.successes <= r.counts.total
    && r.goodputPercent == Percent(met, r.counts.total)
  }

  lemma GoodputWeightIsMet(r: RunResult, met: nat)
    requires GoodputOf(r, met)
    ensures GoodputWeight(r) == met as real * 100.0
  {
    if r.counts.total > 0 {
      Cancel(met as real * 100.0, r.counts.total as real);
    }
  }

  lemma Cancel(x: real, y: real)
    requires y != 0.0
    ensures x / y * y == x
  {
  }

  lemma {:induction false} GoodputAddsUp(rs: seq<RunResult>, met: seq<nat>)
    requires |rs| == |met| && forall i :: 0 <= i < |rs| ==> GoodputOf(rs[i], met[i])
    ensures TallyOf(rs).goodput == Sum(met) as real * 100.0
    ensures Sum(met) <= TallyOf(rs).counts.total
  {
    if rs != [] {
      var n := |rs| - 1;
      GoodputAddsUp(rs[..n], met[..n]);
      GoodputWeightIsMet(rs[n], met[n]);
      SumConcat(met[..n], [met[n]]);
      assert met == met[..n] + [met[n]];
      assert Sum([met[n]]) == met[n] + Sum([met[n]][1..]);
      assert TallyOf(rs).goodput == TallyOf(rs[..n]).goodput + GoodputWeight(rs[n]);
    }
  }

  lemma GoodputRatio(met: nat, total: nat)
    requires met <= total
    ensures PerRequest(met as real * 100.0, total) == Percent(met, total)
  {
  }

  /** Merged goodput is what one agent that saw every request would have reported: SLO-meeting requests over everything
      that finished. A shard that mostly failed weighs as much as its traffic. */
  lemma MergedGoodput(config: RunConfig, rs: seq<RunResult>, met: seq<nat>)
    requires |rs| == |met| && forall i :: 0 <= i < |rs| ==> GoodputOf(rs[i], met[i])
    ensures var m := Merged(config, rs);
            Sum(met) <= m.counts.total && m.goodputPercent == Percent(Sum(met), m.counts.total)
  {
    hide Merged, GoodputOf, Percent, PerRequest, TallyOf, Sum;
    MergedTally(config, rs);
    GoodputAddsUp(rs, met);
    GoodputRatio(Sum(met), TallyOf(rs).counts.total);
  }

  // ----- pooled percentiles

  lemma PooledIgnoresOrder(metric: Metric, a: seq<RunResult>, b: seq<RunResult>)
    requires multiset(a) == multiset(b)
    ensures DistributionOf(Pooled(metric, a)) == DistributionOf(Pooled(metric, b))
  {
    MapPermutation(metric.Samples(), a, b);
    FlattenPermutation(Map(metric.Samples(), a), Map(metric.Samples(), b));
    DistributionPermutation(Pooled(metric, a), Pooled(metric, b));
  }

  lemma {:induction false} AnySamples(rs: seq<RunResult>)
    ensures TallyOf(rs).anySamples <==> exists i :: 0 <= i < |rs| && rs[i].samples.Some?
  {
    if rs != [] {
      var n := |rs| - 1;
      AnySamples(rs[..n]);
      assert forall i :: 0 <= i < n ==> rs[..n][i] == rs[i];
    }
  }

  /** As soon as one shard sends samples, every merged distribution is the exact distribution of all the samples. */
  lemma PooledDistributionIsExact(config: RunConfig, rs: seq<RunResult>, metric: Metric)
    requires exists i :: 0 <= i < |rs| && rs[i].samples.Some?
    ensures metric.Of(Merged(config, rs)) == DistributionOf(Pooled(metric, rs))
    ensures Merged(config, rs).latencyScope == "pooled_samples"
  {
    AnySamples(rs);
    AccumulatorParts(rs, metric);
  }

  // ----- the fallback

  lemma WithoutSamples(config: RunConfig, rs: seq<RunResult>, metric: Metric)
    requires forall i :: 0 <= i < |rs| ==> rs[i].samples.None?
    ensures metric.Of(Merged(config, rs)) == metric.In(FallbackOf(rs))
  {
    hide Accumulate, FallbackOf, DistributionOf, FinishScenarios;
    AnySamples(rs);
    AccumulatorParts(rs, metric);
  }

  /** The shards' own distributions, for the shards that measured anything. */
  function Parts(metric: Metric, rs: seq<RunResult>): seq<Weighted>
  {
    if rs == [] then [] else
      var n := |rs| - 1;
      var before := Parts(metric, rs[..n]);
      if WeightOf(rs[n]) == 0 then before else before + [Weighted(metric.Of(rs[n]), WeightOf(rs[n]))]
  }

  lemma AddFallbackStep(metric: Metric, f: Fallback, r: RunResult)
    ensures AddFallback(f, r).weight == f.weight + WeightOf(r)
    ensures metric.In(AddFallback(f, r))
         == if WeightOf(r) == 0 then metric.In(f)
            else MergeDistribution(metric.In(f), metric.Of(r), f.weight, WeightOf(r))
  {
    hide MergeDistribution, WeightOf;
  }

  lemma {:induction false} FallbackIsMergeInOrder(metric: Metric, rs: seq<RunResult>)
    ensures metric.In(FallbackOf(rs)) == MergeInOrder(Parts(metric, rs))
    ensures FallbackOf(rs).weight == TotalWeight(Parts(metric, rs))
  {
    if rs != [] {
      hide MergeDistribution, WeightOf, AddFallback;
      var n := |rs| - 1;
      FallbackIsMergeInOrder(metric, rs[..n]);
      AddFallbackStep(metric, FallbackOf(rs[..n]), rs[n]);
      if WeightOf(rs[n]) > 0 {
        MergeInOrderSnoc(Parts(metric, rs[..n]), Weighted(metric.Of(rs[n]), WeightOf(rs[n])));
      }
    }
  }

  /** Each result summarizes a list of values of its own, possibly empty, and kept no samples. A shard that measured
      nothing at all has weight 0 and no values. */
  ghost predicate Summaries(metric: Metric, rs: seq<RunResult>, lists: seq<seq<nat>>)
  {
    && |rs| == |lists|
    && forall i :: 0 <= i < |rs| ==> Summarizes(metric, rs[i], lists[i])
  }

  ghost predicate Summarizes(metric: Metric, r: RunResult, values: seq<nat>)
  {
    r.samples.None? && metric.Of(r) == DistributionOf(values) && (WeightOf(r) == 0 ==> values == [])
  }

  /** The lists of the shards that count. */
  function Counted(rs: seq<RunResult>, lists: seq<seq<nat>>): seq<seq<nat>>
    requires |rs| == |lists|
  {
    if rs == [] then [] else
      var n := |rs| - 1;
      var before := Counted(rs[..n], lists[..n]);
      if WeightOf(rs[n]) == 0 then before else before + [lists[n]]
  }

  lemma FirstSummaries(metric: Metric, rs: seq<RunResult>, lists: seq<seq<nat>>, n: nat)
    requires Summaries(metric, rs, lists) && n < |rs|
    ensures Summaries(metric, rs[..n], lists[..n]) && Summarizes(metric, rs[n], lists[n])
  {
    hide Summarizes;
  }

  lemma CountedStep(metric: Metric, parts: seq<Weighted>, counted: seq<seq<nat>>, r: RunResult, values: seq<nat>)
    requires WeighedParts(parts, counted) && Summarizes(metric, r, values)
    ensures WeightOf(r) > 0 ==> WeighedParts(parts + [Weighted(metric.Of(r), WeightOf(r))], counted + [values])
    ensures Flatten(if WeightOf(r) == 0 then counted else counted + [values]) == Flatten(counted) + values
    ensures AnyEmpty(if WeightOf(r) == 0 then counted else counted + [values])
       <==> AnyEmpty(counted) || (WeightOf(r) > 0 && values == [])
  {
    hide WeightOf, DistributionOf, Flatten, AnyEmpty;
    FlattenSnoc(counted, values);
    AnyEmptySnoc(counted, values);
  }

  lemma {:induction false} CountedParts(metric: Metric, rs: seq<RunResult>, lists: seq<seq<nat>>)
    requires Summaries(metric, rs, lists)
    ensures WeighedParts(Parts(metric, rs), Counted(rs, lists)) && Flatten(Counted(rs, lists)) == Flatten(lists)
  {
    if rs == [] {
      assert lists == [];
    } else {
      hide WeightOf, WeighedParts, AnyEmpty, Summaries, Summarizes, Flatten;
      var n := |rs| - 1;
      FirstSummaries(metric, rs, lists, n);
      CountedParts(metric, rs[..n], lists[..n]);
      CountedStep(metric, Parts(metric, rs[..n]), Counted(rs[..n], lists[..n]), rs[n], lists[n]);
      FlattenLast(lists);
    }
  }

  /** A shard that counts has no values. */
  ghost predicate Gap(rs: seq<RunResult>, lists: seq<seq<nat>>)
    requires |rs| == |lists|
  {
    exists i :: 0 <= i < |rs| && WeightOf(rs[i]) > 0 && lists[i] == []
  }

  lemma GapSnoc(rs: seq<RunResult>, lists: seq<seq<nat>>, n: nat)
    requires |rs| == |lists| == n + 1
    ensures Gap(rs, lists) <==> Gap(rs[..n], lists[..n]) || (WeightOf(rs[n]) > 0 && lists[n] == [])
  {
    hide WeightOf;
    assert forall i :: 0 <= i < n ==> rs[..n][i] == rs[i] && lists[..n][i] == lists[i];
  }

  lemma {:induction false} CountedEmpty(metric: Metric, rs: seq<RunResult>, lists: seq<seq<nat>>)
    requires Summaries(metric, rs, lists)
    ensures AnyEmpty(Counted(rs, lists)) <==> Gap(rs, lists)
  {
    if rs != [] {
      hide WeightOf, WeighedParts, AnyEmpty, Summaries, Summarizes, Gap;
      var n := |rs| - 1;
      FirstSummaries(metric, rs, lists, n);
      CountedEmpty(metric, rs[..n], lists[..n]);
      CountedParts(metric, rs[..n], lists[..n]);
      CountedStep(metric, Parts(metric, rs[..n]), Counted(rs[..n], lists[..n]), rs[n], lists[n]);
      GapSnoc(rs, lists, n);
    }
  }

  /** The weights are the numbers of values. */
  ghost predicate WeighedByLength(rs: seq<RunResult>, lists: seq<seq<nat>>)
    requires |rs| == |lists|
  {
    forall i :: 0 <= i < |rs| ==> WeightOf(rs[i]) == |lists[i]|
  }

  /** Part by part: the distribution of a non-empty list, weighted by its length. */
  ghost predicate OwnParts(parts: seq<Weighted>, lists: seq<seq<nat>>)
  {
    && |parts| == |lists|
    && forall i :: 0 <= i < |parts| ==> lists[i] != [] && parts[i] == Weighted(DistributionOf(lists[i]), |lists[i]|)
  }

  lemma OwnStep(metric: Metric, parts: seq<Weighted>, counted: seq<seq<nat>>, r: RunResult, values: seq<nat>)
    requires OwnParts(parts, counted) && Summarizes(metric, r, values) && WeightOf(r) == |values| > 0
    ensures OwnParts(parts + [Weighted(metric.Of(r), WeightOf(r))], counted + [values])
  {
    hide WeightOf, DistributionOf;
  }

  lemma {:induction false} CountedByLength(metric: Metric, rs: seq<RunResult>, lists: seq<seq<nat>>)
    requires Summaries(metric, rs, lists) && WeighedByLength(rs, lists)
    ensures OwnParts(Parts(metric, rs), Counted(rs, lists))
  {
    if rs != [] {
      hide WeightOf, OwnParts, Summarizes;
      var n := |rs| - 1;
      assert WeightOf(rs[n]) == |lists[n]|;
      FirstSummaries(metric, rs, lists, n);
      hide Summaries;
      CountedByLength(metric, rs[..n], lists[..n]);
      if WeightOf(rs[n]) > 0 {
        OwnStep(metric, Parts(metric, rs[..n]), Counted(rs[..n], lists[..n]), rs[n], lists[n]);
      }
    }
  }

  lemma MergedFallback(config: RunConfig, rs: seq<RunResult>, metric: Metric)
    requires forall i :: 0 <= i < |rs| ==> rs[i].samples.None?
    ensures metric.Of(Merged(config, rs)) == MergeInOrder(Parts(metric, rs))
  {
    hide Merged, MergeInOrder, FallbackOf;
    WithoutSamples(config, rs, metric);
    FallbackIsMergeInOrder(metric, rs);
  }

  /** Without samples: the maximum is exact and no percentile too low, however the shards are weighted and whether or
      not each has values; the minimum is exact if and only if every shard that counts has values, or it is 0 anyway;
      and if the weights are the numbers of values, the mean is not too high. */
  lemma FallbackErrsHigh(config: RunConfig, rs: seq<RunResult>, metric: Metric, lists: seq<seq<nat>>)
    requires Summaries(metric, rs, lists)
    ensures var merged, exact := metric.Of(Merged(config, rs)), DistributionOf(Flatten(lists));
            && merged.max == exact.max
            && exact.p50 <= merged.p50 && exact.p95 <= merged.p95 && exact.p99 <= merged.p99
            && (merged.min == exact.min
                <==> exact.min == 0 || !Gap(rs, lists))
            && (WeighedByLength(rs, lists) ==> merged.avg <= exact.avg)
  {
    forall i | 0 <= i < |rs| ensures rs[i].samples.None? { assert Summarizes(metric, rs[i], lists[i]); }
    hide DistributionOf, MergeInOrder, WeightOf, Merged, AnyEmpty, Overestimates, Summaries, IsLeast, Gap;
    hide WeighedByLength;
    MergedFallback(config, rs, metric);
    CountedParts(metric, rs, lists);
    CountedEmpty(metric, rs, lists);
    var parts, counted := Parts(metric, rs), Counted(rs, lists);
    PartsOverestimate(parts, counted);
    OverestimateBounds(MergeInOrder(parts), Flatten(lists));
    PartsLeast(parts, counted);
    OwnLeast(Flatten(lists));
    if !AnyEmpty(counted) {
      LeastIsUnique(MergeInOrder(parts).min, DistributionOf(Flatten(lists)).min, Flatten(lists));
    }
    if WeighedByLength(rs, lists) {
      CountedByLength(metric, rs, lists);
      MeanOfParts(parts, counted);
    }
  }

  lemma MeanOfParts(parts: seq<Weighted>, lists: seq<seq<nat>>)
    requires OwnParts(parts, lists)
    ensures MergeInOrder(parts).avg <= DistributionOf(Flatten(lists)).avg
  {
    if parts != [] {
      hide DistributionOf, MergeInOrder;
      FallbackNeverUnderReports(parts, lists);
    }
  }

  // ----- map order

  lemma TallyIgnoresOrder(a: seq<RunResult>, b: seq<RunResult>)
    requires multiset(a) == multiset(b)
    ensures TallyOf(a) == TallyOf(b)
  {
    forall t, x, y ensures AddTally(AddTally(t, x), y) == AddTally(AddTally(t, y), x) {
      AddTallyCommutes(t, x, y);
    }
    FoldPermutation(AddTally, NO_TALLY, a, b);
  }

  lemma AddTallyCommutes(t: Tally, x: RunResult, y: RunResult)
    ensures AddTally(AddTally(t, x), y) == AddTally(AddTally(t, y), x)
  {
    hide GoodputWeight, StatusCount;
    var xy := AddStatusCounts(AddStatusCounts(t.statusCounts, x.statusCounts), y.statusCounts);
    var yx := AddStatusCounts(AddStatusCounts(t.statusCounts, y.statusCounts), x.statusCounts);
    StatusCountsCommute(t.statusCounts, x.statusCounts, y.statusCounts);
  }

  lemma StatusCountsCommute(t: map<int, nat>, x: map<int, nat>, y: map<int, nat>)
    ensures AddStatusCounts(AddStatusCounts(t, x), y) == AddStatusCounts(AddStatusCounts(t, y), x)
  {
    var xy, yx := AddStatusCounts(AddStatusCounts(t, x), y), AddStatusCounts(AddStatusCounts(t, y), x);
    assert xy.Keys == t.Keys + x.Keys + y.Keys == yx.Keys;
  }

  /** A distribution without its mean, the one field a merge rounds on the way. */
  function Blur(d: Distribution): Distribution { d.(avg := 0) }

  function BlurAll(f: Fallback): Fallback
  {
    Fallback(Blur(f.latency), Blur(f.ttft), Blur(f.ttfo), Blur(f.tpot), Blur(f.itl), f.weight)
  }

  function AddBlurred(f: Fallback, r: RunResult): Fallback { BlurAll(AddFallback(f, r)) }

  lemma BlurMerge(a: Distribution, b: Distribution, m: nat, n: nat)
    ensures Blur(MergeDistribution(a, b, m, n)) == Blur(MergeDistribution(Blur(a), b, m, n))
  {
  }

  lemma BlurStep(f: Fallback, r: RunResult)
    ensures AddBlurred(f, r) == AddBlurred(BlurAll(f), r)
  {
    hide MergeDistribution;
    var w := WeightOf(r);
    BlurMerge(f.latency, r.latency, f.weight, w);
    BlurMerge(f.ttft, r.ttft, f.weight, w);
    BlurMerge(f.ttfo, r.ttfo, f.weight, w);
    BlurMerge(f.tpot, r.tpot, f.weight, w);
    BlurMerge(f.itl, r.itl, f.weight, w);
  }

  lemma {:induction false} BlurredFallback(rs: seq<RunResult>)
    ensures BlurAll(FallbackOf(rs)) == FoldLeft(AddBlurred, NO_FALLBACK, rs)
  {
    if rs != [] {
      hide AddFallback;
      var n := |rs| - 1;
      BlurredFallback(rs[..n]);
      BlurStep(FallbackOf(rs[..n]), rs[n]);
    }
  }

  lemma MergesCommute(d: Distribution, x: Distribution, y: Distribution, w: nat, m: nat, n: nat)
    requires m > 0 && n > 0
    ensures Blur(MergeDistribution(MergeDistribution(d, x, w, m), y, w + m, n))
         == Blur(MergeDistribution(MergeDistribution(d, y, w, n), x, w + n, m))
  {
    hide Quotient;
  }

  lemma AddBlurredCommutes(f: Fallback, x: RunResult, y: RunResult)
    ensures AddBlurred(AddBlurred(f, x), y) == AddBlurred(AddBlurred(f, y), x)
  {
    hide MergeDistribution;
    BlurStep(AddFallback(f, x), y);
    BlurStep(AddFallback(f, y), x);
    var m, n, w := WeightOf(x), WeightOf(y), f.weight;
    if m > 0 && n > 0 {
      MergesCommute(f.latency, x.latency, y.latency, w, m, n);
      MergesCommute(f.ttft, x.ttft, y.ttft, w, m, n);
      MergesCommute(f.ttfo, x.ttfo, y.ttfo, w, m, n);
      MergesCommute(f.tpot, x.tpot, y.tpot, w, m, n);
      MergesCommute(f.itl, x.itl, y.itl, w, m, n);
    }
  }

  lemma FallbackIgnoresOrder(a: seq<RunResult>, b: seq<RunResult>, metric: Metric)
    requires multiset(a) == multiset(b)
    ensures BlurAll(FallbackOf(a)) == BlurAll(FallbackOf(b))
    ensures Blur(metric.In(FallbackOf(a))) == Blur(metric.In(FallbackOf(b)))
  {
    forall f, x, y ensures AddBlurred(AddBlurred(f, x), y) == AddBlurred(AddBlurred(f, y), x) {
      AddBlurredCommutes(f, x, y);
    }
    FoldPermutation(AddBlurred, NO_FALLBACK, a, b);
    BlurredFallback(a);
    BlurredFallback(b);
  }

  lemma TimelineIgnoresOrder(a: seq<RunResult>, b: seq<RunResult>)
    requires multiset(a) == multiset(b)
    ensures MergedTimeline(AllPoints(a)) == MergedTimeline(AllPoints(b))
  {
    MapPermutation(TimelineOf(), a, b);
    FlattenPermutation(Map(TimelineOf(), a), Map(TimelineOf(), b));
    MergedTimelineIgnoresOrder(AllPoints(a), AllPoints(b));
  }

  /** What every iteration order agrees on: all of a result but the mean of the sample-less fallback, the generator
      delay, the guardrail message, the lists of errors and scenarios, and two flags copied from the last shard. */
  function Settled(m: RunResult): RunResult
  {
    m.(latency := Blur(m.latency), ttft := Blur(m.ttft), ttfo := Blur(m.ttfo), itl := Blur(m.itl),
       tpot := Blur(m.tpot), guardrailMessage := "", errors := [], scenarios := [], outputLengthPinned := false,
       contextAccumulated := false, generatorDelay := NO_DISTRIBUTION)
  }

  lemma SummaryIgnoresOrder(a: seq<RunResult>, b: seq<RunResult>, metric: Metric)
    requires multiset(a) == multiset(b)
    ensures var d, e := metric.In(Summarize(FoldLeft(Accumulate, START, a))),
                        metric.In(Summarize(FoldLeft(Accumulate, START, b)));
            Blur(d) == Blur(e) && (TallyOf(a).anySamples ==> d == e)
  {
    hide DistributionOf, Accumulate, AddTally, AddFallback;
    AccumulatorParts(a, metric);
    AccumulatorParts(b, metric);
    TallyIgnoresOrder(a, b);
    PooledIgnoresOrder(metric, a, b);
    FallbackIgnoresOrder(a, b, metric);
  }

  /** Merging ignores the order of the shards, and with samples it ignores it in the means as well. */
  lemma MergingIgnoresOrder(config: RunConfig, a: seq<RunResult>, b: seq<RunResult>, metric: Metric)
    requires multiset(a) == multiset(b)
    ensures Settled(Merged(config, a)) == Settled(Merged(config, b))
    ensures (exists i :: 0 <= i < |a| && a[i].samples.Some?) ==>
              metric.Of(Merged(config, a)) == metric.Of(Merged(config, b))
  {
    hide Accumulate, AddTally, Summarize, MergedTimeline, FinishScenarios, Percent, PerRequest, PerSecond;
    AccumulatorParts(a, Latency);
    AccumulatorParts(b, Latency);
    TallyIgnoresOrder(a, b);
    TimelineIgnoresOrder(a, b);
    AnySamples(a);
    SummaryIgnoresOrder(a, b, Latency);
    SummaryIgnoresOrder(a, b, Ttft);
    SummaryIgnoresOrder(a, b, Ttfo);
    SummaryIgnoresOrder(a, b, Itl);
    SummaryIgnoresOrder(a, b, Tpot);
  }

  /** So the verdict that drives a capacity sweep is a function of the shards' results, not of Go's map order. */
  lemma VerdictIgnoresOrder(run: Run, a: seq<RunResult>, b: seq<RunResult>)
    requires multiset(a) == multiset(b)
    ensures Sweep.IsRunStable(run.(result := Merged(run.config, a)))
         == Sweep.IsRunStable(run.(result := Merged(run.config, b)))
  {
    hide Merged;
    MergingIgnoresOrder(run.config, a, b, Latency);
    var m, n := Merged(run.config, a), Merged(run.config, b);
    assert Settled(m) == Settled(n);
    assert m.latency.p95 == Blur(m.latency).p95 && m.ttft.p95 == Blur(m.ttft).p95;
  }

  lemma AtMostRatio(a: real, b: real, c: real)
    requires b > 0.0
    ensures a / b <= c <==> a <= c * b
  {
    var q := a / b;
    assert q * b == a;
    if q <= c { ProductMonotone(q, c, b); }
    if q > c { ProductMonotone(c, q, b); }
  }

  lemma ProductMonotone(x: real, y: real, b: real)
    requires b > 0.0
    ensures x <= y ==> x * b <= y * b
    ensures x < y ==> x * b < y * b
  {
  }

  /** At least 95 percent of the values are within the limit; an empty list is held to 0. */
  predicate MostlyWithin(values: seq<nat>, limit: int)
  {
    if values == [] then limit >= 0 else Covers(values, 95, limit)
  }

  lemma P95Within(values: seq<nat>, limit: int)
    ensures DistributionOf(values).p95 <= limit <==> MostlyWithin(values, limit)
  {
    if values != [] { DistributionPercentiles(values, limit); }
  }

  lemma MergedHeadline(config: RunConfig, rs: seq<RunResult>)
    ensures var m := Merged(config, rs); m.p95Millis == m.latency.p95
  {
    hide Accumulate, MergedTimeline, FinishScenarios, Summarize;
  }

  lemma CompletionRatio(completed: nat, issued: nat, limit: real)
    requires issued > 0
    ensures Percent(completed, issued) < limit <==> completed as real * 100.0 < limit * issued as real
  {
    AtMostRatio(completed as real * 100.0, issued as real, limit);
    var q := Percent(completed, issued);
    assert q * issued as real == completed as real * 100.0;
    ProductMonotone(q, limit, issued as real);
  }

  lemma VerdictParts(run: Run)
    requires run.result.counts.total == run.result.counts.successes + run.result.counts.failures
    requires run.result.p95Millis == run.result.latency.p95
    ensures var c, config := run.result.counts, run.config;
            Sweep.IsRunStable(run) <==>
              && c.total > 0
              && (c.issued > 0 ==> !(run.result.completionPercent < Sweep.CompletionLimit(config)))
              && (c.failures * 100) as real / c.total as real <= config.maxErrorPercent
              && run.result.latency.p95 <= config.maxP95Millis
              && (config.maxTtftP95Millis > 0 ==> run.result.ttft.p95 <= config.maxTtftP95Millis)
              && (config.minOutputTokensPerSecond != 0.0 ==>
                    run.result.outputPerSecond >= config.minOutputTokensPerSecond)
  {
  }

  /** What the verdict on a merged run means, without rates and percentiles: something finished; enough of what was
      issued completed; few enough failed; at least 95 percent of all the shards' latencies and first-token times are
      within their limits; and the output is fast enough. */
  lemma VerdictOnMerged(run: Run, rs: seq<RunResult>)
    requires run.result == Merged(run.config, rs) && exists i :: 0 <= i < |rs| && rs[i].samples.Some?
    requires run.result.counts.total == run.result.counts.successes + run.result.counts.failures
    ensures var c, config := run.result.counts, run.config;
            Sweep.IsRunStable(run) <==>
              && c.total > 0
              && (c.issued > 0 ==> c.completed as real * 100.0 >= Sweep.CompletionLimit(config) * c.issued as real)
              && (c.failures * 100) as real <= config.maxErrorPercent * c.total as real
              && MostlyWithin(Pooled(Latency, rs), config.maxP95Millis)
              && (config.maxTtftP95Millis > 0 ==> MostlyWithin(Pooled(Ttft, rs), config.maxTtftP95Millis))
              && (config.minOutputTokensPerSecond != 0.0 ==>
                    run.result.outputPerSecond >= config.minOutputTokensPerSecond)
  {
    hide Merged, MostlyWithin, DistributionOf, Sweep.IsRunStable, Pooled, Percent, Sweep.CompletionLimit;
    var c, config := run.result.counts, run.config;
    PooledDistributionIsExact(config, rs, Latency);
    PooledDistributionIsExact(config, rs, Ttft);
    MergedHeadline(config, rs);
    MergedTally(config, rs);
    hide TallyOf, PerRequest;
    P95Within(Pooled(Latency, rs), config.maxP95Millis);
    P95Within(Pooled(Ttft, rs), config.maxTtftP95Millis);
    VerdictParts(run);
    if c.total > 0 { AtMostRatio((c.failures * 100) as real, c.total as real, config.maxErrorPercent); }
    if c.issued > 0 { CompletionRatio(c.completed, c.issued, Sweep.CompletionLimit(config)); }
  }

  /** Windows take the longest of the shards, and a flag of any shard marks the run. */
  lemma {:induction false} MergedFlags(config: RunConfig, rs: seq<RunResult>)
    ensures var m := Merged(config, rs);
            && (forall i :: 0 <= i < |rs| ==>
                  rs[i].steadySeconds <= m.steadySeconds && rs[i].drainedSeconds <= m.drainedSeconds)
            && (rs != [] ==> exists i :: 0 <= i < |rs| && rs[i].steadySeconds == m.steadySeconds)
            && (rs != [] ==> exists i :: 0 <= i < |rs| && rs[i].drainedSeconds == m.drainedSeconds)
            && (m.stoppedByGuardrail <==> exists i :: 0 <= i < |rs| && rs[i].stoppedByGuardrail)
            && (m.latencyFromIntendedArrival <==> exists i :: 0 <= i < |rs| && rs[i].latencyFromIntendedArrival)
            && (m.samplesDecimated <==> exists i :: 0 <= i < |rs| && rs[i].samplesDecimated)
  {
    TallyFlags(rs);
    hide Accumulate, TallyOf, Summarize, FinishScenarios, MergedTimeline;
    AccumulatorParts(rs, Latency);
  }

  ghost predicate FlagsOf(t: Tally, rs: seq<RunResult>)
  {
    && (forall i :: 0 <= i < |rs| ==>
          rs[i].steadySeconds <= t.steadySeconds && rs[i].drainedSeconds <= t.drainedSeconds)
    && (if rs == [] then t.steadySeconds == 0 else exists i :: 0 <= i < |rs| && rs[i].steadySeconds == t.steadySeconds)
    && (if rs == [] then t.drainedSeconds == 0
        else exists i :: 0 <= i < |rs| && rs[i].drainedSeconds == t.drainedSeconds)
    && (t.stopped <==> exists i :: 0 <= i < |rs| && rs[i].stoppedByGuardrail)
    && (t.fromArrival <==> exists i :: 0 <= i < |rs| && rs[i].latencyFromIntendedArrival)
    && (t.decimated <==> exists i :: 0 <= i < |rs| && rs[i].samplesDecimated)
  }

  lemma {:induction false} TallyFlags(rs: seq<RunResult>)
    ensures FlagsOf(TallyOf(rs), rs)
  {
    if rs != [] {
      var n := |rs| - 1;
      TallyFlags(rs[..n]);
      FlagsSnoc(TallyOf(rs[..n]), rs[..n], rs[n]);
      assert rs == rs[..n] + [rs[n]];
    }
  }

  lemma FlagsSnoc(t: Tally, rs: seq<RunResult>, r: RunResult)
    requires FlagsOf(t, rs)
    ensures FlagsOf(AddTally(t, r), rs + [r])
  {
    hide AddCounts, AddStatusCounts, GoodputWeight;
    var all, t' := rs + [r], AddTally(t, r);
    assert all[|rs|] == r && forall i :: 0 <= i < |rs| ==> all[i] == rs[i];
    if rs != [] {
      var i :| 0 <= i < |rs| && rs[i].steadySeconds == t.steadySeconds;
      var j :| 0 <= j < |rs| && rs[j].drainedSeconds == t.drainedSeconds;
      assert all[i].steadySeconds == t.steadySeconds && all[j].drainedSeconds == t.drainedSeconds;
    }
    assert t'.steadySeconds == t.steadySeconds || t'.steadySeconds == all[|rs|].steadySeconds;
    assert t'.drainedSeconds == t.drainedSeconds || t'.drainedSeconds == all[|rs|].drainedSeconds;
  }

  /** The two flags that the merge takes from whichever shard comes last. */
  function PinnedFlag(r: RunResult): bool { r.outputLengthPinned }
  function ContextFlag(r: RunResult): bool { r.contextAccumulated }

  lemma FlagsOfLast(config: RunConfig, rs: seq<RunResult>)
    requires rs != []
    ensures var m, last := Merged(config, rs), rs[|rs| - 1];
            m.outputLengthPinned == last.outputLengthPinned && m.contextAccumulated == last.contextAccumulated
  {
    hide MergedTimeline, FinishScenarios, Summarize, AddTally, AddFallback, AddScenario;
  }

  lemma MoveLast(rs: seq<RunResult>, i: nat) returns (moved: seq<RunResult>)
    requires i < |rs|
    ensures moved != [] && moved[|moved| - 1] == rs[i] && multiset(moved) == multiset(rs)
  {
    moved := rs[..i] + rs[i + 1..] + [rs[i]];
    CutMultiset(rs, i);
  }

  /** Every order of the shards gives the merged result the same value of a flag. */
  ghost predicate FlagSettled(config: RunConfig, rs: seq<RunResult>, flag: RunResult -> bool)
  {
    forall other: seq<RunResult> :: multiset(other) == multiset(rs) ==>
          flag(Merged(config, other)) == flag(Merged(config, rs))
  }

  ghost predicate FromLast(config: RunConfig, flag: RunResult -> bool)
  {
    forall rs: seq<RunResult> :: rs != [] ==> flag(Merged(config, rs)) == flag(rs[|rs| - 1])
  }

  lemma SettledIfAgreed(config: RunConfig, rs: seq<RunResult>, flag: RunResult -> bool)
    requires rs != [] && FromLast(config, flag)
    ensures FlagSettled(config, rs, flag)
       <==> forall i, j :: 0 <= i < |rs| && 0 <= j < |rs| ==> flag(rs[i]) == flag(rs[j])
  {
    hide Merged;
    var last := |rs| - 1;
    if FlagSettled(config, rs, flag) {
      forall i | 0 <= i < |rs| ensures flag(rs[i]) == flag(rs[last]) {
        var moved := MoveLast(rs, i);
        assert flag(Merged(config, moved)) == flag(Merged(config, rs));
      }
    }
    if forall i, j :: 0 <= i < |rs| && 0 <= j < |rs| ==> flag(rs[i]) == flag(rs[j]) {
      forall other: seq<RunResult> | multiset(other) == multiset(rs)
        ensures flag(Merged(config, other)) == flag(Merged(config, rs))
      {
        LastIsMember(other, rs);
      }
    }
  }

  lemma LastIsMember(other: seq<RunResult>, rs: seq<RunResult>)
    requires rs != [] && multiset(other) == multiset(rs)
    ensures other != [] && exists i :: 0 <= i < |rs| && rs[i] == other[|other| - 1]
  {
    assert |multiset(other)| == |multiset(rs)|;
    assert other[|other| - 1] in multiset(rs);
  }

  /** Whether output lengths were pinned, and whether context was accumulated, is taken from the shard that comes last;
      so it is independent of the order if and only if all the shards agree. */
  lemma FlagsSettledIfAgreed(config: RunConfig, rs: seq<RunResult>)
    requires rs != []
    ensures FlagSettled(config, rs, PinnedFlag)
       <==> forall i, j :: 0 <= i < |rs| && 0 <= j < |rs| ==> PinnedFlag(rs[i]) == PinnedFlag(rs[j])
    ensures FlagSettled(config, rs, ContextFlag)
       <==> forall i, j :: 0 <= i < |rs| && 0 <= j < |rs| ==> ContextFlag(rs[i]) == ContextFlag(rs[j])
  {
    forall some: seq<RunResult> | some != []
      ensures PinnedFlag(Merged(config, some)) == PinnedFlag(some[|some| - 1])
      ensures ContextFlag(Merged(config, some)) == ContextFlag(some[|some| - 1])
    {
      FlagsOfLast(config, some);
    }
    hide Merged;
    SettledIfAgreed(config, rs, PinnedFlag);
    SettledIfAgreed(config, rs, ContextFlag);
  }

  function BackoffsOf(): RunResult -> int { (r: RunResult) => r.backoffEvents }

  lemma {:induction false} NoBackoffs(rs: seq<RunResult>)
    ensures SumBy(BackoffsOf(), rs) >= 0
    ensures SumBy(BackoffsOf(), rs) == 0 <==> forall i :: 0 <= i < |rs| ==> rs[i].backoffEvents == 0
  {
    if rs != [] {
      NoBackoffs(rs[1..]);
      assert forall i :: 0 < i < |rs| ==> rs[i] == rs[1..][i - 1];
    }
  }

  /** The backoff counters are not added up: a merged result has none, which is their sum if and only if
      no shard had any. */
  lemma BackoffsDropped(config: RunConfig, rs: seq<RunResult>)
    ensures var m := Merged(config, rs);
            && m.backoffEvents == 0 && m.backoffSeconds == 0.0
            && (m.backoffEvents == SumBy(BackoffsOf(), rs) <==> forall i :: 0 <= i < |rs| ==> rs[i].backoffEvents == 0)
  {
    NoBackoffs(rs);
    hide Accumulate, MergedTimeline, FinishScenarios, Summarize;
  }
}
