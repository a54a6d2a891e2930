/** When a distributed run is exact, read off its stored result: the flag for thinned samples (README.md: a full sample
    set is thinned out evenly instead of dropping its beginning). */
module Decimation {
  import opened Core
  import opened Folds
  import opened OrderStatistics
  import opened SampleSets
  import opened ShardMerge
  import opened MergeProperties
  import opened Ledgers
  import opened AgentResult
  import opened Distributed
  import L = LedgerProperties

  /** More was measured than one sample set holds. */
  predicate Overran(metric: Metric, log: seq<Entry>) { |MeasuredBy(metric, log)| >= MAX_SAMPLES_PER_METRIC }

  lemma OverrunIsThinned(history: seq<nat>, cap: nat)
    requires cap >= 2
    ensures Thinned(history, cap).decimated <==> |history| >= cap
    ensures Thinned(history, cap).decimated ==> Thinned(history, cap).values != []
  {
    hide StrideFor;
    if history != [] { ThinnedBounds(history, cap); }
  }

  lemma SetOverran(log: seq<Entry>, c: RunConfig, metric: Metric)
    ensures var s := KindOf(metric).In(Replay(log, c).samples);
            (s.decimated <==> Overran(metric, log)) && (s.decimated ==> s.values != [])
  {
    hide Replay, Thinned, L.Measured;
    L.SamplesAreThinned(log, c, KindOf(metric));
    OverrunIsThinned(MeasuredBy(metric, log), MAX_SAMPLES_PER_METRIC);
  }

  /** Every steady success has one latency and one time to first output, and at most one time per token. */
  lemma {:induction false} FewerThanLatencies(log: seq<Entry>)
    ensures |MeasuredBy(Ttfo, log)| == |MeasuredBy(Latency, log)| >= |MeasuredBy(Tpot, log)|
  {
    if log != [] {
      hide L.Measured;
      var n := |log| - 1;
      FewerThanLatencies(log[..n]);
      assert log == log[..n] + [log[n]];
      L.MeasuredSnoc(L.Latencies, log[..n], log[n]);
      L.MeasuredSnoc(L.Ttfos, log[..n], log[n]);
      L.MeasuredSnoc(L.Tpots, log[..n], log[n]);
    }
  }

  /** Some sample set was thinned out. */
  predicate AnyDecimated(s: Samples)
  {
    s.latencies.decimated || s.ttfts.decimated || s.ttfos.decimated || s.itls.decimated || s.tpots.decimated
  }

  lemma FlagOfResult(l: Ledger, c: RunConfig, now: Readings)
    requires AnyDecimated(l.samples) ==>
               |l.samples.latencies.values| > 0 || |l.samples.ttfts.values| > 0 || |l.samples.itls.values| > 0
    ensures ResultOf(l, c, now).samplesDecimated <==> AnyDecimated(l.samples)
  {
    hide DistributionOf, Sorted, ScenarioResults, Rate, Over, Percent, CountsOf, P95;
  }

  lemma NotFitting(log: seq<Entry>)
    ensures Fits(log) <==> !Overran(Latency, log) && !Overran(Ttft, log) && !Overran(Ttfo, log) && !Overran(Itl, log)
                           && !Overran(Tpot, log)
  {
    hide MeasuredBy;
    if !Overran(Latency, log) && !Overran(Ttft, log) && !Overran(Ttfo, log) && !Overran(Itl, log)
       && !Overran(Tpot, log) {
      forall metric: Metric ensures |MeasuredBy(metric, log)| < MAX_SAMPLES_PER_METRIC {
        match metric
        case Latency => assert !Overran(Latency, log);
        case Ttft => assert !Overran(Ttft, log);
        case Ttfo => assert !Overran(Ttfo, log);
        case Itl => assert !Overran(Itl, log);
        case Tpot => assert !Overran(Tpot, log);
      }
    }
  }

  /** An agent reports thinned samples exactly when its log overran a sample set. */
  lemma ReportDecimated(config: RunConfig, r: RunResult, log: seq<Entry>)
    requires ReportsLog(config, r, log)
    ensures r.samplesDecimated <==> !Fits(log)
  {
    hide Replay, ResultOf, Overran, Fits, SameLimits;
    var c: RunConfig, now: Readings :| SameLimits(c, config) && r == ResultOf(Replay(log, c), c, now);
    SetOverran(log, c, Latency);
    SetOverran(log, c, Ttft);
    SetOverran(log, c, Ttfo);
    SetOverran(log, c, Itl);
    SetOverran(log, c, Tpot);
    OthersOverrun(log);
    NotFitting(log);
    FlagOfResult(Replay(log, c), c, now);
  }

  lemma OthersOverrun(log: seq<Entry>)
    ensures Overran(Ttfo, log) || Overran(Tpot, log) ==> Overran(Latency, log)
  {
    hide MeasuredBy;
    FewerThanLatencies(log);
  }

  /** The merged flag is set if and only if some agent's log overran its own sample sets; and while it is not, every
      merged distribution is that of all steady measurements of all agents, however many these are together. */
  lemma FlagTellsExactness(config: RunConfig, rs: seq<RunResult>, logs: seq<seq<Entry>>, metric: Metric)
    requires ReportLogs(config, rs, logs)
    ensures Merged(config, rs).samplesDecimated <==> exists i :: 0 <= i < |logs| && !Fits(logs[i])
    ensures !Merged(config, rs).samplesDecimated ==>
              metric.Of(Merged(config, rs)) == DistributionOf(MeasuredBy(metric, Flatten(logs)))
  {
    hide ReportsLog, Fits, MeasuredBy, Merged, DistributionOf;
    MergedFlags(config, rs);
    forall i | 0 <= i < |rs| ensures rs[i].samplesDecimated <==> !Fits(logs[i]) {
      ReportDecimated(config, rs[i], logs[i]);
    }
    if !Merged(config, rs).samplesDecimated { MergedIsMeasured(config, rs, logs, metric); }
  }
}
