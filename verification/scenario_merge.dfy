/** Per-scenario figures of a merged run (internal/store/store.go, `mergeScenario`): each step of a workload is added up
    and pooled under its own name. */
module ScenarioMerge {
  import opened Core
  import opened Folds
  import opened OrderStatistics
  import opened ShardMerge
  import opened MergeProperties

  datatype ScenarioCounter = Issued | Completed | Failures | Cancelled | OutputTokens | InputTokens
  {
    function In(r: ScenarioResult): int
    {
      match this
      case Issued => r.issued
      case Completed => r.completed
      case Failures => r.failures
      case Cancelled => r.cancelled
      case OutputTokens => r.outputTokens
      case InputTokens => r.inputTokens
    }

    /** This counter, for the results of one scenario only. */
    function Named(name: string): ScenarioResult -> int
    {
      (r: ScenarioResult) => if r.name == name then In(r) else 0
    }
  }

  datatype ScenarioMetric = ScenarioLatency | ScenarioTtft
  {
    function Of(r: ScenarioResult): Distribution
    {
      match this
      case ScenarioLatency => r.latency
      case ScenarioTtft => r.ttft
    }

    function From(s: RunSamples): seq<nat>
    {
      match this
      case ScenarioLatency => s.latency
      case ScenarioTtft => s.ttft
    }

    /** The samples a result brings for one scenario. */
    function Sent(name: string): ScenarioResult -> seq<nat>
    {
      (r: ScenarioResult) => if r.name == name && r.samples.Some? then From(r.samples.value) else []
    }
  }

  /** All samples of one scenario, result after result. */
  function SentBy(metric: ScenarioMetric, name: string, results: seq<ScenarioResult>): seq<nat>
  {
    Flatten(Map(metric.Sent(name), results))
  }

  /** The distributions in one scenario's results, weighted by the requests completed. */
  function PartsOf(metric: ScenarioMetric, name: string, results: seq<ScenarioResult>): seq<Weighted>
  {
    if results == [] then [] else
      var n := |results| - 1;
      var before := PartsOf(metric, name, results[..n]);
      if results[n].name == name && results[n].completed > 0 then
        before + [Weighted(metric.Of(results[n]), results[n].completed)]
      else before
  }

  ghost predicate Reported(results: seq<ScenarioResult>, name: string)
  {
    exists i :: 0 <= i < |results| && results[i].name == name
  }

  function Collected(results: seq<ScenarioResult>): Scenarios { FoldLeft(AddScenario, NO_SCENARIOS, results) }

  /** `order` lists exactly the names in `entries`, once each. */
  ghost predicate Listed(s: Scenarios)
  {
    && (forall name :: name in s.order <==> name in s.entries)
    && (forall name :: name in s.entries ==> s.entries[name].result.name == name)
    && (forall i, j :: 0 <= i < j < |s.order| ==> s.order[i] != s.order[j])
  }

  lemma AddScenarioStep(s: Scenarios, next: ScenarioResult, name: string)
    requires Listed(s)
    ensures var s' := AddScenario(s, next);
            Listed(s') && (name in s'.entries <==> name in s.entries || next.name == name)
  {
    hide MergeDistribution, MergeScenario;
    NameKept(EntryOf(s, next.name).result, next);
  }

  lemma NameKept(current: ScenarioResult, next: ScenarioResult)
    ensures MergeScenario(current, next).name == current.name
  {
  }

  lemma ScenarioCounterStep(s: Scenarios, next: ScenarioResult, name: string, counter: ScenarioCounter)
    ensures counter.In(EntryOf(AddScenario(s, next), name).result)
         == counter.In(EntryOf(s, name).result) + counter.Named(name)(next)
  {
    hide MergeDistribution;
  }

  lemma ScenarioSamplesStep(s: Scenarios, next: ScenarioResult, name: string, metric: ScenarioMetric)
    ensures metric.From(EntryOf(AddScenario(s, next), name).samples)
         == metric.From(EntryOf(s, name).samples) + metric.Sent(name)(next)
  {
    hide MergeScenario;
  }

  lemma ScenarioMetricStep(s: Scenarios, next: ScenarioResult, name: string, metric: ScenarioMetric)
    ensures var before, after := EntryOf(s, name).result, EntryOf(AddScenario(s, next), name).result;
            metric.Of(after)
            == if next.name == name && next.completed > 0
               then MergeDistribution(metric.Of(before), metric.Of(next), before.completed, next.completed)
               else metric.Of(before)
  {
    hide MergeDistribution;
  }

  lemma {:induction false} CollectedNames(results: seq<ScenarioResult>, name: string)
    ensures Listed(Collected(results))
    ensures name in Collected(results).entries <==> Reported(results, name)
  {
    if results != [] {
      hide AddScenario;
      var n := |results| - 1;
      CollectedNames(results[..n], name);
      AddScenarioStep(Collected(results[..n]), results[n], name);
      assert forall i :: 0 <= i < n ==> results[..n][i] == results[i];
    }
  }

  lemma NoneCollected(results: seq<ScenarioResult>, name: string, counter: ScenarioCounter, metric: ScenarioMetric)
    requires results == []
    ensures var entry := EntryOf(Collected(results), name);
            && counter.In(entry.result) == SumBy(counter.Named(name), results) == 0
            && metric.From(entry.samples) == SentBy(metric, name, results) == []
            && metric.Of(entry.result) == MergeInOrder(PartsOf(metric, name, results))
            && entry.result.completed == TotalWeight(PartsOf(metric, name, results))
  {
    assert Collected(results) == NO_SCENARIOS;
    assert Map(metric.Sent(name), results) == [];
  }

  lemma CollectedLast(results: seq<ScenarioResult>)
    requires results != []
    ensures var n := |results| - 1; Collected(results) == AddScenario(Collected(results[..n]), results[n])
    ensures var n := |results| - 1; results == results[..n] + [results[n]]
  {
    hide AddScenario;
  }

  lemma {:induction false} CollectedSums(results: seq<ScenarioResult>, name: string, counter: ScenarioCounter)
    ensures counter.In(EntryOf(Collected(results), name).result) == SumBy(counter.Named(name), results)
  {
    hide *;
    if results == [] {
      NoneCollected(results, name, counter, ScenarioLatency);
    } else {
      var n := |results| - 1;
      CollectedSums(results[..n], name, counter);
      CollectedLast(results);
      ScenarioCounterStep(Collected(results[..n]), results[n], name, counter);
      SumBySnoc(counter.Named(name), results[..n], results[n]);
    }
  }

  lemma SentBySnoc(metric: ScenarioMetric, name: string, results: seq<ScenarioResult>, next: ScenarioResult)
    ensures SentBy(metric, name, results + [next]) == SentBy(metric, name, results) + metric.Sent(name)(next)
  {
    MapSnoc(metric.Sent(name), results, next);
    FlattenSnoc(Map(metric.Sent(name), results), metric.Sent(name)(next));
  }

  lemma {:induction false} CollectedSamples(results: seq<ScenarioResult>, name: string, metric: ScenarioMetric)
    ensures metric.From(EntryOf(Collected(results), name).samples) == SentBy(metric, name, results)
  {
    hide *;
    if results == [] {
      NoneCollected(results, name, ScenarioCounter.Issued, metric);
    } else {
      var n := |results| - 1;
      CollectedSamples(results[..n], name, metric);
      CollectedLast(results);
      ScenarioSamplesStep(Collected(results[..n]), results[n], name, metric);
      SentBySnoc(metric, name, results[..n], results[n]);
    }
  }

  lemma {:induction false} CollectedParts(results: seq<ScenarioResult>, name: string, metric: ScenarioMetric)
    ensures var parts, r := PartsOf(metric, name, results), EntryOf(Collected(results), name).result;
            metric.Of(r) == MergeInOrder(parts) && r.completed == TotalWeight(parts)
  {
    hide AddScenario, EntryOf, MergeDistribution, MergeInOrder, TotalWeight, Collected, FoldLeft;
    if results == [] {
      NoneCollected(results, name, ScenarioCounter.Issued, metric);
    } else {
      var n := |results| - 1;
      var before := PartsOf(metric, name, results[..n]);
      CollectedParts(results[..n], name, metric);
      CollectedLast(results);
      ScenarioMetricStep(Collected(results[..n]), results[n], name, metric);
      ScenarioCounterStep(Collected(results[..n]), results[n], name, ScenarioCounter.Completed);
      if results[n].name == name && results[n].completed > 0 {
        MergeInOrderSnoc(before, Weighted(metric.Of(results[n]), results[n].completed));
      }
    }
  }

  /** No rate is worked out before the end. */
  lemma {:induction false} CollectedUnrated(results: seq<ScenarioResult>, name: string)
    ensures EntryOf(Collected(results), name).result.completionPercent == 0.0
  {
    if results != [] {
      hide Collected, FoldLeft, MergeDistribution;
      CollectedLast(results);
      CollectedUnrated(results[..|results| - 1], name);
    }
  }

  /** What is known about a row of one scenario, from all results there are. */
  ghost predicate RowOf(row: ScenarioResult, all: seq<ScenarioResult>, counter: ScenarioCounter, metric: ScenarioMetric)
  {
    && counter.In(row) == SumBy(counter.Named(row.name), all)
    && row.completionPercent == Percent(row.completed, row.issued)
    && metric.Of(row) == (if SentBy(ScenarioLatency, row.name, all) == [] then
                            MergeInOrder(PartsOf(metric, row.name, all))
                          else DistributionOf(SentBy(metric, row.name, all)))
    && row.samples.None?
  }

  lemma FinishedRow(all: seq<ScenarioResult>, name: string, counter: ScenarioCounter, metric: ScenarioMetric)
    ensures var row := FinishScenario(EntryOf(Collected(all), name));
            row.name == name ==> RowOf(row, all, counter, metric)
  {
    hide DistributionOf, MergeInOrder, PartsOf, SentBy, Collected, EntryOf, SumBy;
    CollectedSums(all, name, counter);
    CollectedSamples(all, name, metric);
    CollectedSamples(all, name, ScenarioLatency);
    CollectedParts(all, name, metric);
    CollectedUnrated(all, name);
  }

  /** One row per scenario that any shard reported, no row twice; each counter of a row is the sum over all shards'
      results of that name; its latencies are exact over all the samples of that name, and without any the merge of
      those results' own, weighted by the requests completed; and no samples are kept. */
  lemma MergedScenarios(config: RunConfig, rs: seq<RunResult>, name: string, counter: ScenarioCounter,
                        metric: ScenarioMetric)
    ensures var rows, all := Merged(config, rs).scenarios, AllScenarios(rs);
            && (Reported(rows, name) <==> Reported(all, name))
            && (forall i, j :: 0 <= i < j < |rows| ==> rows[i].name != rows[j].name)
            && (forall i :: 0 <= i < |rows| && rows[i].name == name ==> RowOf(rows[i], all, counter, metric))
  {
    hide Accumulate, DistributionOf, Summarize, AddScenario, RowOf, FinishScenario;
    var s, all := Collected(AllScenarios(rs)), AllScenarios(rs);
    var rows := FinishScenarios(s);
    AccumulatorParts(rs, Latency);
    assert Merged(config, rs).scenarios == rows;
    hide Merged, Collected, AllScenarios;
    CollectedNames(all, name);
    RowsAreListed(s, name);
    forall i | 0 <= i < |rows| && rows[i].name == name ensures RowOf(rows[i], all, counter, metric) {
      FinishedRow(all, name, counter, metric);
    }
  }

  lemma RowsAreListed(s: Scenarios, name: string)
    requires Listed(s)
    ensures var rows := FinishScenarios(s);
            && |rows| == |s.order|
            && (forall i :: 0 <= i < |rows| ==> rows[i].name == s.order[i] && rows[i].samples.None?)
            && (Reported(rows, name) <==> name in s.entries)
  {
    hide DistributionOf;
    var rows := FinishScenarios(s);
    forall i | 0 <= i < |rows| ensures rows[i].name == s.order[i] && rows[i].samples.None? {
      assert s.order[i] in s.order;
    }
    if name in s.entries {
      var i :| 0 <= i < |s.order| && s.order[i] == name;
      assert rows[i].name == name;
    }
  }
}
