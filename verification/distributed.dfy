/** A distributed run against a single process: README.md promises that pooling the raw samples of all agents gives what
    one process would have reported. */
module Distributed {
  import opened Core
  import opened Folds
  import opened OrderStatistics
  import opened SampleSets
  import opened ShardMerge
  import opened MergeProperties
  import opened Ledgers
  import opened AgentResult
  import L = LedgerProperties
  import Lifecycle = RequestLifecycle

  /** Both configurations hold requests to the same limits. */
  predicate SameLimits(a: RunConfig, b: RunConfig)
  {
    && a.maxP95Millis == b.maxP95Millis && a.maxTtftP95Millis == b.maxTtftP95Millis
    && a.maxTpotP95Millis == b.maxTpotP95Millis && a.minOutputTokensPerSecond == b.minOutputTokensPerSecond
  }

  /** An agent's part in a run: what it recorded, the configuration it had, and its clock at the end. */
  datatype AgentRun = AgentRun(log: seq<Entry>, config: RunConfig, now: Readings)
  {
    ghost function Report(): RunResult { ResultOf(Replay(log, config), config, now) }
  }

  ghost function ReportsFrom(agents: seq<AgentRun>): seq<RunResult>
  {
    seq(|agents|, i requires 0 <= i < |agents| => agents[i].Report())
  }

  function LogsOf(agents: seq<AgentRun>): seq<seq<Entry>>
  {
    seq(|agents|, i requires 0 <= i < |agents| => agents[i].log)
  }

  /** `r` is an agent's report about its own log. */
  ghost predicate ReportsLog(config: RunConfig, r: RunResult, log: seq<Entry>)
  {
    exists c: RunConfig, now: Readings :: SameLimits(c, config) && r == ResultOf(Replay(log, c), c, now)
  }

  ghost predicate ReportLogs(config: RunConfig, rs: seq<RunResult>, logs: seq<seq<Entry>>)
  {
    |rs| == |logs| && forall i :: 0 <= i < |rs| ==> ReportsLog(config, rs[i], logs[i])
  }

  // ----- counters

  /** The counter of the ledger behind a counter of the result; three are sums of several. */
  function Behind(counter: Counter): L.LedgerCounter
    requires !counter.Failures? && !counter.Total? && !counter.Completed?
  {
    match counter
    case Successes => L.LedgerCounter.Successes
    case Dropped => L.LedgerCounter.Dropped
    case Sessions => L.LedgerCounter.Sessions
    case CompletedSessions => L.LedgerCounter.CompletedSessions
    case Issued => L.LedgerCounter.Issued
    case Cancelled => L.LedgerCounter.Cancelled
    case HttpFailures => L.LedgerCounter.HttpFailures
    case TransportErrors => L.LedgerCounter.TransportErrors
    case SteadySamples => L.LedgerCounter.SteadySamples
    case MissingUsage => L.LedgerCounter.MissingUsage
    case ContentChunks => L.LedgerCounter.ContentChunks
    case PromptTokens => L.LedgerCounter.PromptTokens
    case CompletionTokens => L.LedgerCounter.CompletionTokens
    case ReasoningTokens => L.LedgerCounter.ReasoningTokens
    case Status(code) => L.LedgerCounter.Status(code)
  }

  /** What one entry adds to a counter of the result. */
  function Adds(counter: Counter, e: Entry, config: RunConfig): int
  {
    match counter
    case Failures => L.LedgerCounter.HttpFailures.Of(e, config) + L.LedgerCounter.TransportErrors.Of(e, config)
    case Total =>
      L.LedgerCounter.Successes.Of(e, config) + L.LedgerCounter.HttpFailures.Of(e, config)
      + L.LedgerCounter.TransportErrors.Of(e, config)
    case Completed => L.LedgerCounter.Successes.Of(e, config) + L.LedgerCounter.HttpFailures.Of(e, config)
    case _ => Behind(counter).Of(e, config)
  }

  function Adding(counter: Counter, config: RunConfig): Entry -> int { (e: Entry) => Adds(counter, e, config) }

  /** A counter of an agent's ledger. */
  function CounterIn(counter: Counter, l: Ledger): int { counter.In(CountsOf(l.totals), l.statusCounts) }

  lemma CounterIsBehind(l: Ledger, counter: Counter)
    ensures CounterIn(counter, l)
         == match counter
            case Failures => L.LedgerCounter.HttpFailures.In(l) + L.LedgerCounter.TransportErrors.In(l)
            case Total =>
              L.LedgerCounter.Successes.In(l) + L.LedgerCounter.HttpFailures.In(l)
                  + L.LedgerCounter.TransportErrors.In(l)
            case Completed => L.LedgerCounter.Successes.In(l) + L.LedgerCounter.HttpFailures.In(l)
            case _ => Behind(counter).In(l)
  {
  }

  lemma CounterStep(l: Ledger, e: Entry, config: RunConfig, counter: Counter)
    ensures CounterIn(counter, Apply(l, e, config)) == CounterIn(counter, l) + Adds(counter, e, config)
  {
    hide Apply, CounterIn, L.LedgerCounter.In, L.LedgerCounter.Of, Behind;
    CounterIsBehind(Apply(l, e, config), counter);
    CounterIsBehind(l, counter);
    if counter.Failures? || counter.Total? || counter.Completed? {
      L.EntryCounts(l, e, config, L.LedgerCounter.Successes);
      L.EntryCounts(l, e, config, L.LedgerCounter.HttpFailures);
      L.EntryCounts(l, e, config, L.LedgerCounter.TransportErrors);
    } else {
      L.EntryCounts(l, e, config, Behind(counter));
    }
  }

  lemma NothingBehind(counter: L.LedgerCounter)
    ensures counter.In(BLANK) == 0
  {
  }

  lemma BlankCounters(counter: Counter)
    ensures CounterIn(counter, BLANK) == 0
  {
    hide CounterIn, L.LedgerCounter.In, Behind;
    CounterIsBehind(BLANK, counter);
    NothingBehind(L.LedgerCounter.Successes);
    NothingBehind(L.LedgerCounter.HttpFailures);
    NothingBehind(L.LedgerCounter.TransportErrors);
    if !counter.Failures? && !counter.Total? && !counter.Completed? { NothingBehind(Behind(counter)); }
  }

  lemma {:induction false} CounterIsSum(log: seq<Entry>, config: RunConfig, counter: Counter)
    ensures CounterIn(counter, Replay(log, config)) == SumBy(Adding(counter, config), log)
  {
    hide Apply, CounterIn, Adds;
    if log == [] {
      BlankCounters(counter);
    } else {
      var n := |log| - 1;
      CounterIsSum(log[..n], config, counter);
      CounterStep(Replay(log[..n], config), log[n], config, counter);
      assert log == log[..n] + [log[n]];
      SumBySnoc(Adding(counter, config), log[..n], log[n]);
    }
  }

  lemma SameAdds(counter: Counter, e: Entry, c: RunConfig, config: RunConfig)
    requires SameLimits(c, config)
    ensures Adds(counter, e, c) == Adds(counter, e, config)
  {
  }

  lemma ReportCounts(config: RunConfig, r: RunResult, log: seq<Entry>, counter: Counter)
    requires ReportsLog(config, r, log)
    ensures counter.Read()(r) == SumBy(Adding(counter, config), log)
  {
    var c: RunConfig, now: Readings :| SameLimits(c, config) && r == ResultOf(Replay(log, c), c, now);
    CounterIsSum(log, c, counter);
    forall e ensures Adding(counter, c)(e) == Adding(counter, config)(e) { SameAdds(counter, e, c, config); }
    Lifecycle.SumsAlike(Adding(counter, c), Adding(counter, config), log);
    hide Replay, DistributionOf, Sorted, ScenarioResults, Adds;
  }

  lemma {:induction false} SumOverLogs(f: RunResult -> int, g: Entry -> int, rs: seq<RunResult>, logs: seq<seq<Entry>>)
    requires |rs| == |logs| && forall i :: 0 <= i < |rs| ==> f(rs[i]) == SumBy(g, logs[i])
    ensures SumBy(f, rs) == SumBy(g, Flatten(logs))
  {
    if rs != [] {
      var n := |rs| - 1;
      SumOverLogs(f, g, rs[..n], logs[..n]);
      assert rs == rs[..n] + [rs[n]];
      SumBySnoc(f, rs[..n], rs[n]);
      SumByConcat(g, Flatten(logs[..n]), logs[n]);
    }
  }

  /** Every counter of the merged result is that counter of one agent that saw every request, in whatever order. */
  lemma CounterAgrees(config: RunConfig, rs: seq<RunResult>, logs: seq<seq<Entry>>, single: RunResult, all: seq<Entry>,
                      counter: Counter)
    requires ReportLogs(config, rs, logs) && ReportsLog(config, single, all) && multiset(all) == multiset(Flatten(logs))
    ensures counter.Read()(Merged(config, rs)) == counter.Read()(single)
  {
    hide ReportsLog, Merged, Adds, Adding;
    MergingConserves(config, rs, counter);
    forall i | 0 <= i < |rs| ensures counter.Read()(rs[i]) == SumBy(Adding(counter, config), logs[i]) {
      ReportCounts(config, rs[i], logs[i], counter);
    }
    SumOverLogs(counter.Read(), Adding(counter, config), rs, logs);
    SumByPermutation(Adding(counter, config), all, Flatten(logs));
    ReportCounts(config, single, all, counter);
  }

  lemma SameCounts(a: RunResult, b: RunResult)
    requires forall counter: Counter :: counter.Read()(a) == counter.Read()(b)
    ensures a.counts == b.counts
  {
    assert Counter.Successes.Read()(a) == Counter.Successes.Read()(b);
    assert Counter.Failures.Read()(a) == Counter.Failures.Read()(b);
    assert Counter.Total.Read()(a) == Counter.Total.Read()(b);
    assert Counter.Dropped.Read()(a) == Counter.Dropped.Read()(b);
    assert Counter.Sessions.Read()(a) == Counter.Sessions.Read()(b);
    assert Counter.CompletedSessions.Read()(a) == Counter.CompletedSessions.Read()(b);
    assert Counter.Issued.Read()(a) == Counter.Issued.Read()(b);
    assert Counter.Completed.Read()(a) == Counter.Completed.Read()(b);
    assert Counter.Cancelled.Read()(a) == Counter.Cancelled.Read()(b);
    assert Counter.HttpFailures.Read()(a) == Counter.HttpFailures.Read()(b);
    assert Counter.TransportErrors.Read()(a) == Counter.TransportErrors.Read()(b);
    assert Counter.SteadySamples.Read()(a) == Counter.SteadySamples.Read()(b);
    assert Counter.MissingUsage.Read()(a) == Counter.MissingUsage.Read()(b);
    assert Counter.ContentChunks.Read()(a) == Counter.ContentChunks.Read()(b);
    assert Counter.PromptTokens.Read()(a) == Counter.PromptTokens.Read()(b);
    assert Counter.CompletionTokens.Read()(a) == Counter.CompletionTokens.Read()(b);
    assert Counter.ReasoningTokens.Read()(a) == Counter.ReasoningTokens.Read()(b);
  }

  // ----- goodput

  function MetBy(config: RunConfig): Entry -> int { L.LedgerCounter.Goodput.Weight(config) }

  lemma GoodputOfLog(config: RunConfig, c: RunConfig, now: Readings, log: seq<Entry>)
    requires SameLimits(c, config)
    ensures Replay(log, c).totals.goodput == SumBy(MetBy(config), log)
  {
    L.CountersCount(log, c, L.LedgerCounter.Goodput);
    hide Replay;
    Lifecycle.SumsAlike(MetBy(c), MetBy(config), log);
  }

  lemma ReportGoodput(config: RunConfig, r: RunResult, log: seq<Entry>) returns (met: nat)
    requires ReportsLog(config, r, log)
    ensures GoodputOf(r, met) && met == SumBy(MetBy(config), log)
  {
    var c: RunConfig, now: Readings :| SameLimits(c, config) && r == ResultOf(Replay(log, c), c, now);
    hide Replay, ResultOf, MetBy, GoodputOf;
    GoodputOfLog(config, c, now, log);
    ResultGoodput(log, c, now);
    met := Replay(log, c).totals.goodput;
  }

  lemma {:induction false} ReportsGoodput(config: RunConfig, rs: seq<RunResult>, logs: seq<seq<Entry>>)
    returns (met: seq<nat>)
    requires ReportLogs(config, rs, logs)
    ensures |met| == |rs| && (forall i :: 0 <= i < |rs| ==> GoodputOf(rs[i], met[i]))
    ensures Sum(met) == SumBy(MetBy(config), Flatten(logs))
  {
    hide ReportsLog, GoodputOf, MetBy;
    if rs == [] {
      met := [];
    } else {
      var n := |rs| - 1;
      var before := ReportsGoodput(config, rs[..n], logs[..n]);
      var last := ReportGoodput(config, rs[n], logs[n]);
      met := before + [last];
      SumConcat(before, [last]);
      assert Sum([last]) == last + Sum([last][1..]);
      SumByConcat(MetBy(config), Flatten(logs[..n]), logs[n]);
    }
  }

  lemma GoodputAgrees(config: RunConfig, rs: seq<RunResult>, logs: seq<seq<Entry>>, single: RunResult, all: seq<Entry>)
    requires ReportLogs(config, rs, logs) && ReportsLog(config, single, all) && multiset(all) == multiset(Flatten(logs))
    requires Merged(config, rs).counts == single.counts
    ensures Merged(config, rs).goodputPercent == single.goodputPercent
  {
    hide ReportsLog, Merged, Percent, MetBy;
    var met := ReportsGoodput(config, rs, logs);
    MergedGoodput(config, rs, met);
    var whole := ReportGoodput(config, single, all);
    SumByPermutation(MetBy(config), all, Flatten(logs));
  }

  // ----- distributions

  function KindOf(metric: Metric): L.SampleKind
  {
    match metric
    case Latency => L.Latencies
    case Ttft => L.Ttfts
    case Ttfo => L.Ttfos
    case Itl => L.Itls
    case Tpot => L.Tpots
  }

  /** Everything of one metric that was measured. */
  function MeasuredBy(metric: Metric, log: seq<Entry>): seq<nat> { L.Measured(KindOf(metric), log) }

  /** The log fits into the sample sets, so nothing is thinned out. */
  ghost predicate Fits(log: seq<Entry>)
  {
    forall metric: Metric :: |MeasuredBy(metric, log)| < MAX_SAMPLES_PER_METRIC
  }

  lemma {:induction false} NothingMeasured(log: seq<Entry>, metric: Metric)
    requires MeasuredBy(Latency, log) == []
    ensures MeasuredBy(metric, log) == []
  {
    if log != [] {
      var n := |log| - 1;
      assert log == log[..n] + [log[n]];
      L.MeasuredSnoc(L.Latencies, log[..n], log[n]);
      L.MeasuredSnoc(KindOf(metric), log[..n], log[n]);
      NothingMeasured(log[..n], metric);
    }
  }

  lemma SamplesOfLog(log: seq<Entry>, c: RunConfig, metric: Metric)
    requires Fits(log)
    ensures KindOf(metric).In(Replay(log, c).samples).values == MeasuredBy(metric, log)
  {
    hide Replay;
    L.SamplesAreThinned(log, c, KindOf(metric));
    hide Thinned;
    UndecimatedKeepsAll(MeasuredBy(metric, log), MAX_SAMPLES_PER_METRIC);
  }

  lemma SamplesInResult(l: Ledger, c: RunConfig, now: Readings, metric: Metric)
    ensures var r := ResultOf(l, c, now);
            && metric.Of(r) == DistributionOf(KindOf(metric).In(l.samples).values)
            && (r.samples.Some? ==> metric.From(SamplesOf(r)) == KindOf(metric).In(l.samples).values)
            && (r.samples.None? ==> l.samples.latencies.values == [])
  {
    hide DistributionOf, Sorted, ScenarioResults, Rate, Percent, CountsOf;
  }

  /** A report holds all its samples, or has none. */
  lemma ReportSamples(config: RunConfig, r: RunResult, log: seq<Entry>, metric: Metric)
    requires ReportsLog(config, r, log) && Fits(log)
    ensures metric.From(SamplesOf(r)) == MeasuredBy(metric, log)
    ensures metric.Of(r) == DistributionOf(MeasuredBy(metric, log))
    ensures r.samples.None? ==> MeasuredBy(metric, log) == []
  {
    var c: RunConfig, now: Readings :| SameLimits(c, config) && r == ResultOf(Replay(log, c), c, now);
    hide Replay, ResultOf, DistributionOf, MeasuredBy, Fits;
    SamplesOfLog(log, c, metric);
    SamplesOfLog(log, c, Latency);
    SamplesInResult(Replay(log, c), c, now, metric);
    if r.samples.None? { NothingMeasured(log, metric); }
  }

  lemma {:induction false} PooledIsMeasured(config: RunConfig, rs: seq<RunResult>, logs: seq<seq<Entry>>,
                                            metric: Metric)
    requires ReportLogs(config, rs, logs) && forall i :: 0 <= i < |logs| ==> Fits(logs[i])
    ensures Pooled(metric, rs) == MeasuredBy(metric, Flatten(logs))
  {
    hide ReportsLog, Fits, DistributionOf;
    if rs != [] {
      var n := |rs| - 1;
      PooledIsMeasured(config, rs[..n], logs[..n], metric);
      ReportSamples(config, rs[n], logs[n], metric);
      assert rs == rs[..n] + [rs[n]];
      PooledSnoc(metric, rs[..n], rs[n]);
      MeasuredConcat(metric, Flatten(logs[..n]), logs[n]);
    }
  }

  lemma MeasuredConcat(metric: Metric, a: seq<Entry>, b: seq<Entry>)
    ensures MeasuredBy(metric, a + b) == MeasuredBy(metric, a) + MeasuredBy(metric, b)
  {
    var from := KindOf(metric).From();
    assert Map(from, a + b) == Map(from, a) + Map(from, b);
    FlattenConcat(Map(from, a), Map(from, b));
  }

  lemma MeasuredPermutation(metric: Metric, a: seq<Entry>, b: seq<Entry>)
    requires multiset(a) == multiset(b)
    ensures multiset(MeasuredBy(metric, a)) == multiset(MeasuredBy(metric, b))
  {
    MapPermutation(KindOf(metric).From(), a, b);
    FlattenPermutation(Map(KindOf(metric).From(), a), Map(KindOf(metric).From(), b));
  }

  /** A part of a log that fits, fits. */
  lemma {:induction false} PartsFit(logs: seq<seq<Entry>>, i: nat)
    requires Fits(Flatten(logs)) && i < |logs|
    ensures Fits(logs[i])
  {
    var n := |logs| - 1;
    forall metric: Metric
      ensures |MeasuredBy(metric, Flatten(logs))|
          == |MeasuredBy(metric, Flatten(logs[..n]))| + |MeasuredBy(metric, logs[n])|
    {
      MeasuredConcat(metric, Flatten(logs[..n]), logs[n]);
    }
    if i < n { PartsFit(logs[..n], i); }
  }

  /** Without any samples, all distributions are empty, and so is their merge. */
  lemma {:induction false} NothingFallsBack(rs: seq<RunResult>, metric: Metric)
    requires forall i :: 0 <= i < |rs| ==> metric.Of(rs[i]) == NO_DISTRIBUTION
    ensures metric.In(FallbackOf(rs)) == NO_DISTRIBUTION
  {
    if rs != [] {
      hide AddFallback;
      var n := |rs| - 1;
      NothingFallsBack(rs[..n], metric);
      AddFallbackStep(metric, FallbackOf(rs[..n]), rs[n]);
    }
  }

  lemma PartsFitToo(logs: seq<seq<Entry>>, all: seq<Entry>)
    requires multiset(all) == multiset(Flatten(logs)) && Fits(all)
    ensures forall i :: 0 <= i < |logs| ==> Fits(logs[i])
  {
    var whole := Flatten(logs);
    forall m: Metric ensures |MeasuredBy(m, whole)| == |MeasuredBy(m, all)| {
      MeasuredPermutation(m, all, whole);
      assert |multiset(MeasuredBy(m, whole))| == |multiset(MeasuredBy(m, all))|;
    }
    forall i | 0 <= i < |logs| ensures Fits(logs[i]) { PartsFit(logs, i); }
  }

  lemma NoneMeasured(config: RunConfig, rs: seq<RunResult>, logs: seq<seq<Entry>>, metric: Metric)
    requires ReportLogs(config, rs, logs) && forall i :: 0 <= i < |logs| ==> Fits(logs[i])
    requires forall i :: 0 <= i < |rs| ==> rs[i].samples.None?
    ensures metric.Of(Merged(config, rs)) == NO_DISTRIBUTION && Pooled(metric, rs) == []
  {
    hide ReportsLog, Fits, MeasuredBy, Merged, FallbackOf;
    forall i | 0 <= i < |rs|
      ensures metric.Of(rs[i]) == NO_DISTRIBUTION && metric.From(SamplesOf(rs[i])) == []
    {
      ReportSamples(config, rs[i], logs[i], metric);
    }
    NothingPooled(metric, rs);
    NothingFallsBack(rs, metric);
    WithoutSamples(config, rs, metric);
  }

  lemma NoValues()
    ensures DistributionOf([]) == NO_DISTRIBUTION
  {
  }

  /** As long as every shard kept all its samples, the merged distributions are those of everything that
      was measured. */
  lemma MergedIsMeasured(config: RunConfig, rs: seq<RunResult>, logs: seq<seq<Entry>>, metric: Metric)
    requires ReportLogs(config, rs, logs) && forall i :: 0 <= i < |logs| ==> Fits(logs[i])
    ensures metric.Of(Merged(config, rs)) == DistributionOf(MeasuredBy(metric, Flatten(logs)))
  {
    hide ReportsLog, Fits, MeasuredBy, Merged, Pooled, DistributionOf;
    PooledIsMeasured(config, rs, logs, metric);
    if exists i :: 0 <= i < |rs| && rs[i].samples.Some? {
      PooledDistributionIsExact(config, rs, metric);
    } else {
      NoneMeasured(config, rs, logs, metric);
      NoValues();
    }
  }

  lemma DistributionAgrees(config: RunConfig, rs: seq<RunResult>, logs: seq<seq<Entry>>, single: RunResult,
                           all: seq<Entry>, metric: Metric)
    requires ReportLogs(config, rs, logs) && ReportsLog(config, single, all) && multiset(all) == multiset(Flatten(logs))
    requires Fits(all)
    ensures metric.Of(Merged(config, rs)) == metric.Of(single)
  {
    hide ReportsLog, ReportLogs, Fits, MeasuredBy, Merged, DistributionOf;
    PartsFitToo(logs, all);
    MergedIsMeasured(config, rs, logs, metric);
    MeasuredPermutation(metric, all, Flatten(logs));
    DistributionPermutation(MeasuredBy(metric, all), MeasuredBy(metric, Flatten(logs)));
    ReportSamples(config, single, all, metric);
  }

  lemma {:induction false} NothingPooled(metric: Metric, rs: seq<RunResult>)
    requires forall i :: 0 <= i < |rs| ==> metric.From(SamplesOf(rs[i])) == []
    ensures Pooled(metric, rs) == []
  {
    if rs != [] {
      var n := |rs| - 1;
      NothingPooled(metric, rs[..n]);
      assert rs == rs[..n] + [rs[n]];
      PooledSnoc(metric, rs[..n], rs[n]);
    }
  }

  // ----- the promise

  /** The merged result against a single process that made all the requests. */
  ghost predicate Agrees(merged: RunResult, single: RunResult, metric: Metric, code: int)
  {
    && merged.counts == single.counts
    && StatusCount(merged.statusCounts, code) == StatusCount(single.statusCounts, code)
    && merged.goodputPercent == single.goodputPercent
    && merged.completionPercent == single.completionPercent
    && metric.Of(merged) == metric.Of(single)
  }

  lemma ReportsAgree(config: RunConfig, rs: seq<RunResult>, logs: seq<seq<Entry>>, single: RunResult, all: seq<Entry>,
                     metric: Metric, code: int)
    requires ReportLogs(config, rs, logs) && ReportsLog(config, single, all) && multiset(all) == multiset(Flatten(logs))
    requires Fits(all)
    ensures Agrees(Merged(config, rs), single, metric, code)
  {
    hide ReportsLog, ReportLogs, Merged, Fits;
    forall counter: Counter ensures counter.Read()(Merged(config, rs)) == counter.Read()(single) {
      CounterAgrees(config, rs, logs, single, all, counter);
    }
    SameCounts(Merged(config, rs), single);
    assert Counter.Status(code).Read()(Merged(config, rs)) == Counter.Status(code).Read()(single);
    DistributionAgrees(config, rs, logs, single, all, metric);
    GoodputAgrees(config, rs, logs, single, all);
    CompletionAgrees(config, rs, single, all);
  }

  lemma ReportsOfAgents(config: RunConfig, agents: seq<AgentRun>)
    requires forall i :: 0 <= i < |agents| ==> SameLimits(agents[i].config, config)
    ensures ReportLogs(config, ReportsFrom(agents), LogsOf(agents))
  {
    hide ResultOf, Replay, SameLimits;
    forall i | 0 <= i < |agents| ensures ReportsLog(config, ReportsFrom(agents)[i], LogsOf(agents)[i]) {
      ReportOfAgent(config, agents[i]);
    }
  }

  lemma ReportOfAgent(config: RunConfig, agent: AgentRun)
    requires SameLimits(agent.config, config)
    ensures ReportsLog(config, agent.Report(), agent.log)
  {
    hide ResultOf, Replay, SameLimits;
    assert agent.Report() == ResultOf(Replay(agent.log, agent.config), agent.config, agent.now);
  }

  /** However the requests of a run were spread over agents, and in whatever order the controller merged their reports:
      as long as the measurements fit into the sample sets, the run's counters, goodput and completion rates and all
      five latency distributions are those of a single process that made all the requests itself. */
  lemma DistributedIsSingleProcess(config: RunConfig, agents: seq<AgentRun>, single: AgentRun, metric: Metric,
                                   code: int)
    requires SameLimits(single.config, config)
    requires forall i :: 0 <= i < |agents| ==> SameLimits(agents[i].config, config)
    requires multiset(single.log) == multiset(Flatten(LogsOf(agents))) && Fits(single.log)
    ensures Agrees(Merged(config, ReportsFrom(agents)), single.Report(), metric, code)
  {
    hide Merged, Fits, Agrees, AgentRun.Report, SameLimits;
    ReportsOfAgents(config, agents);
    ReportOfAgent(config, single);
    ReportsAgree(config, ReportsFrom(agents), LogsOf(agents), single.Report(), single.log, metric, code);
  }

  lemma CompletionAgrees(config: RunConfig, rs: seq<RunResult>, single: RunResult, all: seq<Entry>)
    requires ReportsLog(config, single, all) && Merged(config, rs).counts == single.counts
    ensures Merged(config, rs).completionPercent == single.completionPercent
  {
    hide Merged, Percent, Replay, DistributionOf, Sorted, ScenarioResults;
    MergedTally(config, rs);
  }

  // ----- rates per second

  /** The output rates divide by the same time, or neither divides. */
  predicate OnTime(durationSeconds: int, elapsed: real)
  {
    durationSeconds as real == elapsed || (durationSeconds <= 0 && elapsed <= 0.0)
  }

  lemma SameQuotient(count: nat, seconds: int, elapsed: real)
    ensures PerSecond(count, seconds) == Rate(count, elapsed) <==> count == 0 || OnTime(seconds, elapsed)
  {
    var x, y := PerSecond(count, seconds), Rate(count, elapsed);
    if seconds > 0 { assert x * seconds as real == count as real; }
    if elapsed > 0.0 { assert y * elapsed == count as real; }
    if seconds > 0 && elapsed > 0.0 && x == y { assert x * (seconds as real - elapsed) == 0.0; }
  }

  /** The request rates are the same number: the agent's is one at all only if some time has passed. */
  predicate SameRate(count: nat, durationSeconds: int, elapsed: real)
  {
    elapsed != 0.0 && (count == 0 || durationSeconds as real == elapsed)
  }

  lemma SameNumber(count: nat, seconds: int, elapsed: real)
    requires elapsed >= 0.0
    ensures Number(PerSecond(count, seconds)) == Over(count, elapsed) <==> SameRate(count, seconds, elapsed)
  {
    if elapsed > 0.0 {
      SameQuotient(count, seconds, elapsed);
      assert Over(count, elapsed) == Number(Rate(count, elapsed));
    }
  }

  lemma RateFields(config: RunConfig, rs: seq<RunResult>, l: Ledger, c: RunConfig, now: Readings)
    ensures var m := Merged(config, rs);
            && m.throughputRps == Number(PerSecond(m.counts.total, config.durationSeconds))
            && m.outputPerSecond == PerSecond(m.counts.completionTokens, config.durationSeconds)
    ensures var r := ResultOf(l, c, now);
            && r.throughputRps == Over(r.counts.total, now.elapsed)
            && r.outputPerSecond == Rate(r.counts.completionTokens, now.elapsed)
  {
    hide Accumulate, Summarize, FinishScenarios, Percent, PerRequest, PerSecond, Rate, Over, DistributionOf, Sorted;
    hide ScenarioResults, CountsOf, SamplesSent, P95, FoldLeft;
  }

  /** The two rates per second are the exception: the controller divides by the configured duration and a single process
      by the time it took, so they are the same if and only if nothing was counted or those times are; and without any
      time passed the process has no request rate at all. */
  lemma RatesAgreeOnTime(config: RunConfig, agents: seq<AgentRun>, single: AgentRun)
    requires SameLimits(single.config, config) && single.now.elapsed >= 0.0
    requires forall i :: 0 <= i < |agents| ==> SameLimits(agents[i].config, config)
    requires multiset(single.log) == multiset(Flatten(LogsOf(agents)))
    ensures var merged, own := Merged(config, ReportsFrom(agents)), single.Report();
            && (merged.throughputRps == own.throughputRps
                <==> SameRate(own.counts.total, config.durationSeconds, single.now.elapsed))
            && (merged.outputPerSecond == own.outputPerSecond
                <==> own.counts.completionTokens == 0 || OnTime(config.durationSeconds, single.now.elapsed))
  {
    hide Merged, ResultOf, Replay, SameLimits, ReportLogs, ReportsLog, OnTime, SameRate, PerSecond, Rate, Over;
    var rs, own := ReportsFrom(agents), single.Report();
    ReportsOfAgents(config, agents);
    ReportOfAgent(config, single);
    CounterAgrees(config, rs, LogsOf(agents), own, single.log, Total);
    CounterAgrees(config, rs, LogsOf(agents), own, single.log, CompletionTokens);
    RateFields(config, rs, Replay(single.log, single.config), single.config, single.now);
    SameNumber(own.counts.total, config.durationSeconds, single.now.elapsed);
    SameQuotient(own.counts.completionTokens, config.durationSeconds, single.now.elapsed);
  }

  lemma LongerIsSlower(count: nat, seconds: int, elapsed: real)
    requires count > 0 && 0 < seconds && seconds as real < elapsed
    ensures Over(count, elapsed).Number? && PerSecond(count, seconds) > Over(count, elapsed).value
  {
    var x, y, s := PerSecond(count, seconds), Over(count, elapsed).value, seconds as real;
    assert x * s == count as real && y * elapsed == count as real && y > 0.0;
    Scaled(s, elapsed, y);
    Unscaled(y, x, s);
  }

  lemma Scaled(a: real, b: real, k: real)
    requires a < b && k > 0.0
    ensures k * a < k * b
  {
  }

  lemma Unscaled(a: real, b: real, k: real)
    requires k > 0.0 && k * a < k * b
    ensures a < b
  {
    if b < a { Scaled(b, a, k); }
  }

  lemma MergedAlone(config: RunConfig, r: RunResult)
    ensures Merged(config, [r]).counts.total == r.counts.total
  {
    hide Merged;
    MergingConserves(config, [r], Total);
    SumOfOne(Counter.Total.Read(), [r], 0);
  }

  /** The first rate is higher. */
  predicate Faster(a: RunResult, b: RunResult)
  {
    a.throughputRps.Number? && b.throughputRps.Number? && a.throughputRps.value > b.throughputRps.value
  }

  /** Whenever an agent took longer than configured and finished something, the controller shows a higher rate for its
      run than the agent reported. */
  lemma OvertimeRaisesRate(config: RunConfig, agent: AgentRun)
    requires 0 < config.durationSeconds && config.durationSeconds as real < agent.now.elapsed
    requires agent.Report().counts.total > 0
    ensures Faster(Merged(config, [agent.Report()]), agent.Report())
  {
    hide Merged, ResultOf, Replay, PerSecond, Over;
    var r := agent.Report();
    RateFields(config, [r], Replay(agent.log, agent.config), agent.config, agent.now);
    MergedAlone(config, r);
    LongerIsSlower(r.counts.total, config.durationSeconds, agent.now.elapsed);
  }

  /** Such a run: one request that succeeds, in 60 seconds that the agent took 75 for. */
  lemma OvertimeHappens(config: RunConfig, call: Attempt, timing: Timing, usage: Usage) returns (agent: AgentRun)
    requires config.durationSeconds == 60
    ensures agent.log == [Began(call, 0, 0), Succeeded(call, 1, 900, timing, 200, usage)] && Lifecycle.Joined(agent.log)
    ensures agent.config == config && agent.now.elapsed == 75.0 && agent.Report().counts.total == 1
    ensures Faster(Merged(config, [agent.Report()]), agent.Report())
  {
    hide Merged, ResultOf, Replay, Faster, Lifecycle.Joined;
    var e := Succeeded(call, 1, 900, timing, 200, usage);
    agent := AgentRun([Began(call, 0, 0), e], config, Readings(75.0, 60, 15, 0, 0.0));
    Lifecycle.NothingJoins();
    Lifecycle.OneRequestJoins([], call, 0, 0, Lifecycle.Response(true, 200, "OK", 0, Lifecycle.Read(timing, usage)),
        1, 900);
    assert [] + agent.log == agent.log;
    OneSuccess(agent.log, config);
    TotalOfReport(Replay(agent.log, config), config, agent.now);
    OvertimeRaisesRate(config, agent);
  }

  lemma OneSuccess(log: seq<Entry>, c: RunConfig)
    requires |log| == 2 && log[0].Began? && log[1].Succeeded?
    ensures CounterIn(Total, Replay(log, c)) == 1
  {
    hide Replay, CounterIn;
    CounterIsSum(log, c, Total);
    SumOfOne(Adding(Total, c), log, 1);
  }

  lemma TotalOfReport(l: Ledger, c: RunConfig, now: Readings)
    ensures ResultOf(l, c, now).counts.total == CounterIn(Total, l)
  {
    hide DistributionOf, Sorted, ScenarioResults, SamplesSent, P95, Rate, Over, Percent;
  }
}
