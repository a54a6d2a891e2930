/** Merging the results of a run's shards into the run's result (internal/store/store.go, `CompleteShard` and its
    helpers). The shards are visited in the order a Go map happens to yield them. */
module ShardMerge {
  import opened Core
  import opened Folds
  import opened OrderStatistics
  import opened TimelineMerge

  // ----- what is added up, whatever the order

  function AddCounts(a: Counts, b: Counts): Counts
  {
    Counts(
      a.successes + b.successes, a.failures + b.failures, a.total + b.total, a.dropped + b.dropped,
      a.sessions + b.sessions, a.completedSessions + b.completedSessions, a.issued + b.issued,
      a.completed + b.completed, a.cancelled + b.cancelled, a.httpFailures + b.httpFailures,
      a.transportErrors + b.transportErrors, a.steadySamples + b.steadySamples, a.missingUsage + b.missingUsage,
      a.contentChunks + b.contentChunks, a.promptTokens + b.promptTokens, a.completionTokens + b.completionTokens,
      a.reasoningTokens + b.reasoningTokens)
  }

  function StatusCount(counts: map<int, nat>, code: int): nat
  {
    if code in counts then counts[code] else 0
  }

  function AddStatusCounts(a: map<int, nat>, b: map<int, nat>): map<int, nat>
  {
    map code | code in a.Keys + b.Keys :: StatusCount(a, code) + StatusCount(b, code)
  }

  datatype Tally = Tally(
    counts: Counts, statusCounts: map<int, nat>, goodput: real, steadySeconds: nat, drainedSeconds: nat,
    stopped: bool, fromArrival: bool, decimated: bool, anySamples: bool)

  /** A shard's goodput, weighted by everything that finished on it. */
  function GoodputWeight(r: RunResult): real
  {
    if r.counts.successes > 0 then r.goodputPercent * r.counts.total as real else 0.0
  }

  function AddTally(t: Tally, r: RunResult): Tally
  {
    Tally(
      AddCounts(t.counts, r.counts), AddStatusCounts(t.statusCounts, r.statusCounts), t.goodput + GoodputWeight(r),
      Max(t.steadySeconds, r.steadySeconds), Max(t.drainedSeconds, r.drainedSeconds),
      t.stopped || r.stoppedByGuardrail, t.fromArrival || r.latencyFromIntendedArrival,
      t.decimated || r.samplesDecimated, t.anySamples || r.samples.Some?)
  }

  // ----- what is pooled or merged in order

  function AppendSamples(into: RunSamples, from: RunSamples): RunSamples
  {
    RunSamples(into.latency + from.latency, into.ttft + from.ttft, into.ttfo + from.ttfo, into.itl + from.itl,
               into.tpot + from.tpot, into.decimated || from.decimated)
  }

  function SamplesOf(r: RunResult): RunSamples
  {
    if r.samples.Some? then r.samples.value else NO_SAMPLES
  }

  /** How many values a shard's distributions stand for. */
  function WeightOf(r: RunResult): nat
  {
    if r.counts.steadySamples == 0 then r.counts.successes else r.counts.steadySamples
  }

  datatype Fallback = Fallback(
    latency: Distribution, ttft: Distribution, ttfo: Distribution, tpot: Distribution, itl: Distribution, weight: nat)

  function AddFallback(f: Fallback, r: RunResult): Fallback
  {
    var weight := WeightOf(r);
    if weight == 0 then f else
      Fallback(
        MergeDistribution(f.latency, r.latency, f.weight, weight), MergeDistribution(f.ttft, r.ttft, f.weight, weight),
        MergeDistribution(f.ttfo, r.ttfo, f.weight, weight), MergeDistribution(f.tpot, r.tpot, f.weight, weight),
        MergeDistribution(f.itl, r.itl, f.weight, weight), f.weight + weight)
  }

  function MergeScenario(current: ScenarioResult, next: ScenarioResult): ScenarioResult
  {
    var merged := current.(
      issued := current.issued + next.issued, completed := current.completed + next.completed,
      failures := current.failures + next.failures, cancelled := current.cancelled + next.cancelled,
      outputTokens := current.outputTokens + next.outputTokens, inputTokens := current.inputTokens + next.inputTokens,
      outputPerSecond := current.outputPerSecond + next.outputPerSecond);
    if next.completed > 0 then
      merged.(latency := MergeDistribution(current.latency, next.latency, current.completed, next.completed),
              ttft := MergeDistribution(current.ttft, next.ttft, current.completed, next.completed))
    else merged
  }

  function NewScenario(name: string): ScenarioResult
  {
    ScenarioResult(name, 0, 0, 0, 0, 0.0, NO_DISTRIBUTION, NO_DISTRIBUTION, 0, 0.0, 0, None)
  }

  datatype ScenarioEntry = ScenarioEntry(result: ScenarioResult, samples: RunSamples)

  /** Scenario results by name, and the names in the order they first turned up. */
  datatype Scenarios = Scenarios(entries: map<string, ScenarioEntry>, order: seq<string>)
  const NO_SCENARIOS := Scenarios(map[], [])

  function EntryOf(s: Scenarios, name: string): ScenarioEntry
  {
    if name in s.entries then s.entries[name] else ScenarioEntry(NewScenario(name), NO_SAMPLES)
  }

  function AddScenario(s: Scenarios, next: ScenarioResult): Scenarios
  {
    var entry := EntryOf(s, next.name);
    var samples := if next.samples.Some? then AppendSamples(entry.samples, next.samples.value) else entry.samples;
    Scenarios(s.entries[next.name := ScenarioEntry(MergeScenario(entry.result, next), samples)],
              if next.name in s.entries then s.order else s.order + [next.name])
  }

  // ----- the whole merge

  datatype Accumulator = Accumulator(
    tally: Tally, pooled: RunSamples, fallback: Fallback, generatorDelay: Distribution, generatorWeight: nat,
    errors: seq<string>, guardrailMessage: string, outputLengthPinned: bool, contextAccumulated: bool,
    scenarios: Scenarios)

  const NO_TALLY := Tally(ZERO_COUNTS, map[], 0.0, 0, 0, false, false, false, false)
  const NO_FALLBACK :=
    Fallback(NO_DISTRIBUTION, NO_DISTRIBUTION, NO_DISTRIBUTION, NO_DISTRIBUTION, NO_DISTRIBUTION, 0)
  const START := Accumulator(NO_TALLY, NO_SAMPLES, NO_FALLBACK, NO_DISTRIBUTION, 0, [], "", false, false, NO_SCENARIOS)

  function Accumulate(acc: Accumulator, r: RunResult): Accumulator
  {
    Accumulator(
      AddTally(acc.tally, r), AppendSamples(acc.pooled, SamplesOf(r)), AddFallback(acc.fallback, r),
      MergeDistribution(acc.generatorDelay, r.generatorDelay, acc.generatorWeight, r.counts.total),
      acc.generatorWeight + r.counts.total, acc.errors + r.errors,
      if r.stoppedByGuardrail then r.guardrailMessage else acc.guardrailMessage,
      r.outputLengthPinned, r.contextAccumulated, FoldLeft(AddScenario, acc.scenarios, r.scenarios))
  }

  function Percent(part: nat, whole: nat): real
  {
    if whole > 0 then part as real * 100.0 / whole as real else 0.0
  }

  function PerRequest(weighted: real, total: nat): real
  {
    if total > 0 then weighted / total as real else weighted
  }

  function PerSecond(count: nat, seconds: int): real
  {
    if seconds > 0 then count as real / seconds as real else 0.0
  }

  /** A scenario's final figures: exact from pooled samples when there are any latencies. */
  function FinishScenario(entry: ScenarioEntry): ScenarioResult
  {
    var r := entry.result;
    var rated := r.(completionPercent := if r.issued > 0 then Percent(r.completed, r.issued) else r.completionPercent,
                    samples := None);
    if entry.samples.latency == [] then rated
    else rated.(latency := DistributionOf(entry.samples.latency), ttft := DistributionOf(entry.samples.ttft))
  }

  function FinishScenarios(s: Scenarios): seq<ScenarioResult>
  {
    seq(|s.order|, i requires 0 <= i < |s.order| => FinishScenario(EntryOf(s, s.order[i])))
  }

  /** Percentiles come from the pooled samples, and from the shards' own distributions only without them. */
  function Summarize(acc: Accumulator): Fallback
  {
    if acc.tally.anySamples then
      Fallback(DistributionOf(acc.pooled.latency), DistributionOf(acc.pooled.ttft), DistributionOf(acc.pooled.ttfo),
               DistributionOf(acc.pooled.tpot), DistributionOf(acc.pooled.itl), acc.fallback.weight)
    else acc.fallback
  }

  function Finish(config: RunConfig, acc: Accumulator, timeline: seq<TimelinePoint>): RunResult
  {
    var t, c, d := acc.tally, acc.tally.counts, Summarize(acc);
    RunResult(
      c, d.latency.p95, d.ttft.p95, Number(PerSecond(c.total, config.durationSeconds)),
      d.latency, d.ttft, d.ttfo, d.itl, d.tpot, PerSecond(c.completionTokens, config.durationSeconds),
      PerRequest(t.goodput, c.total),
      t.stopped, acc.guardrailMessage, t.statusCounts, acc.errors, timeline,
      if t.anySamples then "pooled_samples" else if config.shards > 1 then "worst_shard_p95" else "",
      Percent(c.completed, c.issued), t.steadySeconds, t.drainedSeconds, FinishScenarios(acc.scenarios), None,
      acc.outputLengthPinned, acc.contextAccumulated, t.decimated, t.fromArrival, acc.generatorDelay, 0, 0.0)
  }

  function TimelineOf(): RunResult -> seq<TimelinePoint> { (r: RunResult) => r.timeline }

  /** Every row any of the shards reported. */
  function AllPoints(rs: seq<RunResult>): seq<TimelinePoint> { Flatten(Map(TimelineOf(), rs)) }

  /** The result of a run whose shards are visited in the order `rs`. */
  function Merged(config: RunConfig, rs: seq<RunResult>): RunResult
  {
    Finish(config, FoldLeft(Accumulate, START, rs), MergedTimeline(AllPoints(rs)))
  }

  // ----- the loops of CompleteShard

  lemma NoStatusCounts(merged: map<int, nat>)
    ensures AddStatusCounts(merged, map[]) == merged
  {
  }

  lemma StatusCountStep(merged: map<int, nat>, counts: map<int, nat>, rest: set<int>, code: int)
    requires rest <= counts.Keys && code in rest
    ensures var before := AddStatusCounts(merged, counts - rest);
            AddStatusCounts(merged, counts - (rest - {code}))
                == before[code := StatusCount(before, code) + counts[code]]
  {
  }

  method MergeStatusCounts(merged: map<int, nat>, counts: map<int, nat>) returns (after: map<int, nat>)
    ensures after == AddStatusCounts(merged, counts)
  {
    hide AddStatusCounts;
    after := merged;
    var rest := counts.Keys;
    NoStatusCounts(merged);
    assert counts - rest == map[];
    while exists code :: code in rest
      invariant rest <= counts.Keys
      invariant after == AddStatusCounts(merged, counts - rest)
      decreases |rest|
    {
      var code :| code in rest;
      StatusCountStep(merged, counts, rest, code);
      after := after[code := StatusCount(after, code) + counts[code]];
      rest := rest - {code};
    }
    assert rest == {};
    assert counts - rest == counts;
  }

  method MergeScenarios(scenarios: Scenarios, results: seq<ScenarioResult>) returns (after: Scenarios)
    ensures after == FoldLeft(AddScenario, scenarios, results)
  {
    var entries, order := scenarios.entries, scenarios.order;
    for i := 0 to |results|
      invariant Scenarios(entries, order) == FoldLeft(AddScenario, scenarios, results[..i])
    {
      var scenario := results[i];
      FoldSnoc(AddScenario, scenarios, results[..i], scenario);
      assert results[..i] + [scenario] == results[..i + 1];
      var entry := ScenarioEntry(NewScenario(scenario.name), NO_SAMPLES);
      if scenario.name in entries {
        entry := entries[scenario.name];
      } else {
        order := order + [scenario.name];
      }
      entry := entry.(result := MergeScenario(entry.result, scenario));
      if scenario.samples.Some? {
        entry := entry.(samples := AppendSamples(entry.samples, scenario.samples.value));
      }
      entries := entries[scenario.name := entry];
    }
    assert results[..|results|] == results;
    after := Scenarios(entries, order);
  }

  method TallyResult(before: Tally, value: RunResult) returns (tally: Tally)
    ensures tally == AddTally(before, value)
  {
    hide AddCounts, AddStatusCounts;
    var statusCounts := MergeStatusCounts(before.statusCounts, value.statusCounts);
    tally := before.(counts := AddCounts(before.counts, value.counts), statusCounts := statusCounts,
                     steadySeconds := Max(before.steadySeconds, value.steadySeconds),
                     drainedSeconds := Max(before.drainedSeconds, value.drainedSeconds));
    if value.latencyFromIntendedArrival { tally := tally.(fromArrival := true); }
    if value.samplesDecimated { tally := tally.(decimated := true); }
    if value.samples.Some? { tally := tally.(anySamples := true); }
    if value.stoppedByGuardrail { tally := tally.(stopped := true); }
    if value.counts.successes > 0 {
      tally := tally.(goodput := tally.goodput + value.goodputPercent * value.counts.total as real);
    }
  }

  method AccumulateResult(acc: Accumulator, value: RunResult) returns (after: Accumulator)
    ensures after == Accumulate(acc, value)
  {
    hide MergeDistribution, AddTally, AddScenario;
    var tally := TallyResult(acc.tally, value);
    var pooled, fallback, message := acc.pooled, acc.fallback, acc.guardrailMessage;
    if value.samples.Some? { pooled := AppendSamples(pooled, value.samples.value); }
    if value.stoppedByGuardrail { message := value.guardrailMessage; }
    var scenarios := MergeScenarios(acc.scenarios, value.scenarios);
    var weight := value.counts.steadySamples;
    if weight == 0 { weight := value.counts.successes; }
    if weight > 0 { fallback := AddFallback(fallback, value); }
    after := Accumulator(
      tally, pooled, fallback,
      MergeDistribution(acc.generatorDelay, value.generatorDelay, acc.generatorWeight, value.counts.total),
      acc.generatorWeight + value.counts.total, acc.errors + value.errors, message,
      value.outputLengthPinned, value.contextAccumulated, scenarios);
  }

  /** The merge as the controller runs it: one pass over the shards, then the summary. */
  method MergeResults(config: RunConfig, rs: seq<RunResult>) returns (merged: RunResult)
    ensures merged == Merged(config, rs)
  {
    hide Accumulate, MergedTimeline, Finish, AddPoint, Represents;
    var acc := START;
    var rows := map[];
    assert Represents(map[], MergedTimeline(AllPoints(rs[..0]))) by { EmptyTimeline(); assert rs[..0] == []; }
    for i := 0 to |rs|
      invariant acc == FoldLeft(Accumulate, START, rs[..i])
      invariant Represents(rows, MergedTimeline(AllPoints(rs[..i])))
    {
      AllPointsSnoc(rs[..i], rs[i]);
      FoldSnoc(Accumulate, START, rs[..i], rs[i]);
      assert rs[..i] + [rs[i]] == rs[..i + 1];
      acc := AccumulateResult(acc, rs[i]);
      rows := AddRows(rows, rs[i].timeline, MergedTimeline(AllPoints(rs[..i])));
    }
    assert rs[..|rs|] == rs;
    var timeline := SortedTimeline(rows, MergedTimeline(AllPoints(rs)));
    merged := Finish(config, acc, timeline);
  }

  lemma EmptyTimeline()
    ensures Represents(map[], MergedTimeline(AllPoints([])))
  {
  }

  lemma AllPointsSnoc(rs: seq<RunResult>, r: RunResult)
    ensures AllPoints(rs + [r]) == AllPoints(rs) + r.timeline
    ensures MergedTimeline(AllPoints(rs + [r])) == FoldLeft(AddPoint, MergedTimeline(AllPoints(rs)), r.timeline)
  {
    MapSnoc(TimelineOf(), rs, r);
    FlattenSnoc(Map(TimelineOf(), rs), r.timeline);
    FoldConcat(AddPoint, [], AllPoints(rs), r.timeline);
  }
}
