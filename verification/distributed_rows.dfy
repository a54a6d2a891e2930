/** The tables of a distributed run against a single process: the rows per scenario and the rows per second, which the
    controller puts together from what every agent saw of each. */
module DistributedRows {
  import opened Core
  import opened Folds
  import opened OrderStatistics
  import opened SampleSets
  import opened ShardMerge
  import opened MergeProperties
  import opened ScenarioMerge
  import opened Ledgers
  import opened AgentResult
  import opened Distributed
  import L = LedgerProperties
  import T = TimelineMerge

  // ----- scenarios: what the results of a scenario say about its requests

  function ColumnOf(counter: ScenarioCounter): L.ScenarioColumn
  {
    match counter
    case Issued => L.IssuedIn
    case Completed => L.CompletedIn
    case Failures => L.FailuresIn
    case Cancelled => L.CancelledIn
    case OutputTokens => L.OutputIn
    case InputTokens => L.InputIn
  }

  function TimingsIn(metric: ScenarioMetric, name: string): Entry -> seq<nat>
  {
    match metric
    case ScenarioLatency => L.LatencyIn(name)
    case ScenarioTtft => L.TtftIn(name)
  }

  /** Everything measured of one scenario. */
  function AllTimings(metric: ScenarioMetric, name: string, log: seq<Entry>): seq<nat>
  {
    Flatten(Map(TimingsIn(metric, name), log))
  }

  ghost predicate Unmeasured(metric: ScenarioMetric, name: string, results: seq<ScenarioResult>)
  {
    forall i :: 0 <= i < |results| && results[i].name == name ==> metric.Of(results[i]) == NO_DISTRIBUTION
  }

  /** The results count the requests of one scenario in the log, and hold what was measured of it. */
  ghost predicate Accounts(results: seq<ScenarioResult>, log: seq<Entry>, name: string, counter: ScenarioCounter,
                         metric: ScenarioMetric)
  {
    && (Reported(results, name) <==> L.Mentioned(log, name))
    && SumBy(counter.Named(name), results) == SumBy(ColumnOf(counter).Weight(name), log)
    && SentBy(metric, name, results) == AllTimings(metric, name, log)
    && (AllTimings(metric, name, log) == [] ==> Unmeasured(metric, name, results))
  }

  lemma ReportedConcat(a: seq<ScenarioResult>, b: seq<ScenarioResult>, name: string)
    ensures Reported(a + b, name) <==> Reported(a, name) || Reported(b, name)
  {
    var c := a + b;
    if Reported(a, name) {
      var i :| 0 <= i < |a| && a[i].name == name;
      assert c[i].name == name;
    }
    if Reported(b, name) {
      var i :| 0 <= i < |b| && b[i].name == name;
      assert c[|a| + i].name == name;
    }
    if Reported(c, name) {
      var i :| 0 <= i < |c| && c[i].name == name;
      if i < |a| { assert a[i].name == name; } else { assert b[i - |a|].name == name; }
    }
  }

  lemma MentionedMembers(log: seq<Entry>, name: string)
    ensures L.Mentioned(log, name) <==> exists e :: e in log && L.OfScenario(e, name)
  {
    hide L.OfScenario;
  }

  lemma MentionedConcat(a: seq<Entry>, b: seq<Entry>, name: string)
    ensures L.Mentioned(a + b, name) <==> L.Mentioned(a, name) || L.Mentioned(b, name)
  {
    hide L.OfScenario, L.Mentioned;
    MentionedMembers(a, name);
    MentionedMembers(b, name);
    MentionedMembers(a + b, name);
  }

  lemma SentConcat(metric: ScenarioMetric, name: string, a: seq<ScenarioResult>, b: seq<ScenarioResult>)
    ensures SentBy(metric, name, a + b) == SentBy(metric, name, a) + SentBy(metric, name, b)
  {
    var from := metric.Sent(name);
    assert Map(from, a + b) == Map(from, a) + Map(from, b);
    FlattenConcat(Map(from, a), Map(from, b));
  }

  lemma AllTimingsConcat(metric: ScenarioMetric, name: string, a: seq<Entry>, b: seq<Entry>)
    ensures AllTimings(metric, name, a + b) == AllTimings(metric, name, a) + AllTimings(metric, name, b)
  {
    var from := TimingsIn(metric, name);
    assert Map(from, a + b) == Map(from, a) + Map(from, b);
    FlattenConcat(Map(from, a), Map(from, b));
  }

  lemma AccountsBoth(a: seq<ScenarioResult>, x: seq<Entry>, b: seq<ScenarioResult>, y: seq<Entry>, name: string,
                   counter: ScenarioCounter, metric: ScenarioMetric)
    requires Accounts(a, x, name, counter, metric) && Accounts(b, y, name, counter, metric)
    ensures Accounts(a + b, x + y, name, counter, metric)
  {
    hide Reported, L.Mentioned, SentBy, AllTimings;
    ReportedConcat(a, b, name);
    MentionedConcat(x, y, name);
    SumByConcat(counter.Named(name), a, b);
    SumByConcat(ColumnOf(counter).Weight(name), x, y);
    SentConcat(metric, name, a, b);
    AllTimingsConcat(metric, name, x, y);
  }

  lemma AccountsNothing(results: seq<ScenarioResult>, log: seq<Entry>, name: string, counter: ScenarioCounter,
                      metric: ScenarioMetric)
    requires results == [] && log == []
    ensures Accounts(results, log, name, counter, metric)
  {
    assert Map(metric.Sent(name), results) == [] && Map(TimingsIn(metric, name), log) == [];
  }

  // ----- scenarios: one agent

  /** One agent's row of a scenario. */
  ghost predicate OwnRow(row: ScenarioResult, log: seq<Entry>, counter: ScenarioCounter, metric: ScenarioMetric)
  {
    && row.name != "" && L.Mentioned(log, row.name)
    && counter.In(row) == SumBy(ColumnOf(counter).Weight(row.name), log)
    && row.completionPercent == Percent(row.completed, row.issued)
    && metric.Of(row) == DistributionOf(AllTimings(metric, row.name, log))
    && metric.Sent(row.name)(row) == AllTimings(metric, row.name, log)
  }

  lemma {:induction false} FewerInScenario(metric: ScenarioMetric, name: string, log: seq<Entry>)
    ensures |AllTimings(metric, name, log)| <= |L.Measured(L.Latencies, log)|
    ensures |AllTimings(metric, name, log)| == |AllTimings(ScenarioLatency, name, log)|
  {
    if log != [] {
      hide Flatten;
      var n := |log| - 1;
      FewerInScenario(metric, name, log[..n]);
      assert log == log[..n] + [log[n]];
      L.MeasuredSnoc(L.Latencies, log[..n], log[n]);
      MapSnoc(TimingsIn(metric, name), log[..n], log[n]);
      FlattenSnoc(Map(TimingsIn(metric, name), log[..n]), TimingsIn(metric, name)(log[n]));
      MapSnoc(L.LatencyIn(name), log[..n], log[n]);
      FlattenSnoc(Map(L.LatencyIn(name), log[..n]), L.LatencyIn(name)(log[n]));
    } else {
      NothingInScenario(metric, name, log);
      NothingInScenario(ScenarioLatency, name, log);
    }
  }

  lemma NothingInScenario(metric: ScenarioMetric, name: string, log: seq<Entry>)
    requires log == []
    ensures AllTimings(metric, name, log) == []
  {
    assert Map(TimingsIn(metric, name), log) == [];
  }

  function SetIn(metric: ScenarioMetric, row: ScenarioRow): SampleSet
  {
    match metric
    case ScenarioLatency => row.latencies
    case ScenarioTtft => row.ttfts
  }

  lemma ScenarioSampled(log: seq<Entry>, config: RunConfig, name: string, metric: ScenarioMetric)
    requires Fits(log) && name != ""
    ensures SetIn(metric, L.ScenarioRowOf(Replay(log, config).scenarios, name)).values == AllTimings(metric, name, log)
  {
    hide Replay, Thinned;
    assert |MeasuredBy(Latency, log)| < MAX_SAMPLES_PER_METRIC;
    FewerInScenario(metric, name, log);
    L.ScenarioSamplesAreThinned(log, config, name);
    UndecimatedKeepsAll(AllTimings(metric, name, log), MAX_SAMPLES_PER_METRIC);
  }

  lemma RowFields(name: string, row: ScenarioRow, elapsed: real, counter: ScenarioCounter, metric: ScenarioMetric)
    requires |row.latencies.values| == |row.ttfts.values|
    ensures var r := ScenarioResultOf(name, row, elapsed);
            && r.name == name && counter.In(r) == ColumnOf(counter).In(row)
            && r.completionPercent == Percent(r.completed, r.issued)
            && metric.Of(r) == DistributionOf(SetIn(metric, row).values)
            && metric.Sent(name)(r) == SetIn(metric, row).values
  {
    hide DistributionOf, Rate, Percent;
  }

  lemma OwnScenario(log: seq<Entry>, config: RunConfig, name: string, elapsed: real, counter: ScenarioCounter,
                    metric: ScenarioMetric)
    requires Fits(log) && name != "" && L.Mentioned(log, name)
    ensures OwnRow(ScenarioResultOf(name, L.ScenarioRowOf(Replay(log, config).scenarios, name), elapsed), log, counter,
                   metric)
  {
    hide Replay, Fits, DistributionOf, Rate, Percent, L.Mentioned, L.Listed, ScenarioResultOf, AllTimings;
    hide L.ScenarioRowOf;
    var row := L.ScenarioRowOf(Replay(log, config).scenarios, name);
    L.ScenariosCount(log, config, name, ColumnOf(counter));
    ScenarioSampled(log, config, name, metric);
    ScenarioSampled(log, config, name, ScenarioLatency);
    ScenarioSampled(log, config, name, ScenarioTtft);
    FewerInScenario(ScenarioTtft, name, log);
    RowFields(name, row, elapsed, counter, metric);
  }

  /** The rows an agent reports: one per scenario it saw, each about its own requests. */
  ghost predicate OwnRows(rows: seq<ScenarioResult>, log: seq<Entry>, counter: ScenarioCounter, metric: ScenarioMetric)
  {
    && (forall i, j :: 0 <= i < j < |rows| ==> rows[i].name != rows[j].name)
    && (forall i :: 0 <= i < |rows| ==> OwnRow(rows[i], log, counter, metric))
    && (forall name :: name != "" && L.Mentioned(log, name) ==> Reported(rows, name))
  }

  lemma OwnScenarios(log: seq<Entry>, config: RunConfig, elapsed: real, counter: ScenarioCounter,
                     metric: ScenarioMetric)
    requires Fits(log)
    ensures OwnRows(ScenarioResults(Replay(log, config).scenarios, elapsed), log, counter, metric)
  {
    hide Replay, Fits, L.Mentioned, ScenarioResultOf, OwnRow, L.ScenarioRowOf;
    var t := Replay(log, config).scenarios;
    var rows := ScenarioResults(t, elapsed);
    L.ScenariosCount(log, config, "x", L.IssuedIn);
    forall i | 0 <= i < |rows| ensures OwnRow(rows[i], log, counter, metric) && rows[i].name == t.order[i] {
      assert t.order[i] in t.order;
      L.ScenariosCount(log, config, t.order[i], L.IssuedIn);
      OwnScenario(log, config, t.order[i], elapsed, counter, metric);
      NameOfRow(t.order[i], L.ScenarioRowOf(t, t.order[i]), elapsed);
    }
    forall name | name != "" && L.Mentioned(log, name) ensures Reported(rows, name) {
      L.ScenariosCount(log, config, name, L.IssuedIn);
      var i :| 0 <= i < |t.order| && t.order[i] == name;
      assert rows[i].name == name;
    }
  }

  lemma NameOfRow(name: string, row: ScenarioRow, elapsed: real)
    ensures ScenarioResultOf(name, row, elapsed).name == name
  {
  }

  lemma NamedAlone(rows: seq<ScenarioResult>, log: seq<Entry>, i: nat, counter: ScenarioCounter, metric: ScenarioMetric)
    requires OwnRows(rows, log, counter, metric) && i < |rows|
    ensures SumBy(counter.Named(rows[i].name), rows) == SumBy(ColumnOf(counter).Weight(rows[i].name), log)
    ensures SentBy(metric, rows[i].name, rows) == AllTimings(metric, rows[i].name, log)
  {
    hide OwnRow, SumBy, Flatten, L.Mentioned, Reported;
    var name := rows[i].name;
    assert OwnRow(rows[i], log, counter, metric);
    OwnCounts(rows[i], log, counter, metric);
    SumOfOne(counter.Named(name), rows, i);
    FlattenOne(Map(metric.Sent(name), rows), i);
  }

  lemma OwnCounts(row: ScenarioResult, log: seq<Entry>, counter: ScenarioCounter, metric: ScenarioMetric)
    requires OwnRow(row, log, counter, metric)
    ensures counter.Named(row.name)(row) == SumBy(ColumnOf(counter).Weight(row.name), log)
    ensures metric.Sent(row.name)(row) == AllTimings(metric, row.name, log)
  {
    hide L.Mentioned, SumBy, DistributionOf, AllTimings;
  }

  lemma {:induction false} NotMentioned(log: seq<Entry>, name: string, counter: ScenarioCounter, metric: ScenarioMetric)
    requires !L.Mentioned(log, name)
    ensures SumBy(ColumnOf(counter).Weight(name), log) == 0 && AllTimings(metric, name, log) == []
  {
    hide L.OfScenario;
    forall i | 0 <= i < |log|
      ensures ColumnOf(counter).Weight(name)(log[i]) == 0 && TimingsIn(metric, name)(log[i]) == []
    {
      NotOfScenario(log[i], name, counter, metric);
    }
    hide ColumnOf;
    SumOfNone(ColumnOf(counter).Weight(name), log);
    FlattenNone(Map(TimingsIn(metric, name), log));
  }

  lemma NotOfScenario(e: Entry, name: string, counter: ScenarioCounter, metric: ScenarioMetric)
    requires !L.OfScenario(e, name)
    ensures ColumnOf(counter).Weight(name)(e) == 0 && TimingsIn(metric, name)(e) == []
  {
  }

  lemma NamedNowhere(rows: seq<ScenarioResult>, name: string, counter: ScenarioCounter, metric: ScenarioMetric)
    requires !Reported(rows, name)
    ensures SumBy(counter.Named(name), rows) == 0 && SentBy(metric, name, rows) == []
  {
    SumOfNone(counter.Named(name), rows);
    FlattenNone(Map(metric.Sent(name), rows));
  }

  lemma UnmeasuredRows(rows: seq<ScenarioResult>, log: seq<Entry>, name: string, counter: ScenarioCounter,
                       metric: ScenarioMetric)
    requires OwnRows(rows, log, counter, metric) && AllTimings(metric, name, log) == []
    ensures Unmeasured(metric, name, rows)
  {
    hide L.Mentioned, AllTimings, Reported;
    forall i | 0 <= i < |rows| && rows[i].name == name ensures metric.Of(rows[i]) == NO_DISTRIBUTION {
      assert OwnRow(rows[i], log, counter, metric);
    }
  }

  lemma OwnRowsAccount(rows: seq<ScenarioResult>, log: seq<Entry>, name: string, counter: ScenarioCounter,
                     metric: ScenarioMetric)
    requires OwnRows(rows, log, counter, metric) && name != ""
    ensures Accounts(rows, log, name, counter, metric)
  {
    hide OwnRow, L.Mentioned, SentBy, AllTimings, SumBy, Unmeasured;
    if Reported(rows, name) {
      var i :| 0 <= i < |rows| && rows[i].name == name;
      assert OwnRow(rows[i], log, counter, metric);
      OwnMentioned(rows[i], log, counter, metric);
      NamedAlone(rows, log, i, counter, metric);
    } else {
      NotMentioned(log, name, counter, metric);
      NamedNowhere(rows, name, counter, metric);
    }
    if AllTimings(metric, name, log) == [] { UnmeasuredRows(rows, log, name, counter, metric); }
  }

  lemma OwnMentioned(row: ScenarioResult, log: seq<Entry>, counter: ScenarioCounter, metric: ScenarioMetric)
    requires OwnRow(row, log, counter, metric)
    ensures row.name != "" && L.Mentioned(log, row.name)
  {
  }

  lemma ReportedRows(config: RunConfig, r: RunResult, log: seq<Entry>, counter: ScenarioCounter, metric: ScenarioMetric)
    requires ReportsLog(config, r, log) && Fits(log)
    ensures OwnRows(r.scenarios, log, counter, metric)
  {
    hide Replay, Fits, SameLimits, DistributionOf, ScenarioResults, CountsOf, SamplesSent, P95, OwnRows;
    var c: RunConfig, now: Readings :| SameLimits(c, config) && r == ResultOf(Replay(log, c), c, now);
    OwnScenarios(log, c, now.elapsed, counter, metric);
  }

  // ----- scenarios: all agents

  lemma {:induction false} ReportsAccount(config: RunConfig, rs: seq<RunResult>, logs: seq<seq<Entry>>, name: string,
                                        counter: ScenarioCounter, metric: ScenarioMetric)
    requires ReportLogs(config, rs, logs) && (forall i :: 0 <= i < |logs| ==> Fits(logs[i])) && name != ""
    ensures Accounts(AllScenarios(rs), Flatten(logs), name, counter, metric)
  {
    hide ReportsLog, Fits, Accounts, OwnRows;
    if rs == [] {
      assert Map(ScenariosOf(), rs) == [];
      AccountsNothing(AllScenarios(rs), Flatten(logs), name, counter, metric);
    } else {
      var n := |rs| - 1;
      ReportsAccount(config, rs[..n], logs[..n], name, counter, metric);
      ReportedRows(config, rs[n], logs[n], counter, metric);
      OwnRowsAccount(rs[n].scenarios, logs[n], name, counter, metric);
      AccountsBoth(AllScenarios(rs[..n]), Flatten(logs[..n]), rs[n].scenarios, logs[n], name, counter, metric);
      AllScenariosLast(rs);
    }
  }

  lemma {:induction false} UnmeasuredParts(metric: ScenarioMetric, name: string, results: seq<ScenarioResult>)
    requires Unmeasured(metric, name, results)
    ensures MergeInOrder(PartsOf(metric, name, results)) == NO_DISTRIBUTION
  {
    if results != [] {
      var n := |results| - 1;
      UnmeasuredParts(metric, name, results[..n]);
      if results[n].name == name && results[n].completed > 0 {
        MergeInOrderSnoc(PartsOf(metric, name, results[..n]), Weighted(metric.Of(results[n]), results[n].completed));
      }
    }
  }

  lemma MentionedPermutation(a: seq<Entry>, b: seq<Entry>, name: string)
    requires multiset(a) == multiset(b)
    ensures L.Mentioned(a, name) <==> L.Mentioned(b, name)
  {
    hide L.OfScenario, L.Mentioned;
    MentionedMembers(a, name);
    MentionedMembers(b, name);
    assert forall e :: e in a <==> e in multiset(a);
    assert forall e :: e in b <==> e in multiset(b);
  }

  lemma AllTimingsPermutation(metric: ScenarioMetric, name: string, a: seq<Entry>, b: seq<Entry>)
    requires multiset(a) == multiset(b)
    ensures multiset(AllTimings(metric, name, a)) == multiset(AllTimings(metric, name, b))
    ensures |AllTimings(metric, name, a)| == |AllTimings(metric, name, b)|
    ensures DistributionOf(AllTimings(metric, name, a)) == DistributionOf(AllTimings(metric, name, b))
  {
    var from := TimingsIn(metric, name);
    MapPermutation(from, a, b);
    FlattenPermutation(Map(from, a), Map(from, b));
    DistributionPermutation(AllTimings(metric, name, a), AllTimings(metric, name, b));
    hide DistributionOf;
    assert |AllTimings(metric, name, a)| == |multiset(AllTimings(metric, name, a))|;
    assert |AllTimings(metric, name, b)| == |multiset(AllTimings(metric, name, b))|;
  }

  /** Two rows for one scenario that differ in the output rate and in raw samples at most. */
  ghost predicate SameScenario(a: ScenarioResult, b: ScenarioResult)
  {
    a == b.(outputPerSecond := a.outputPerSecond, samples := a.samples)
  }

  ghost predicate OncePerName(rows: seq<ScenarioResult>)
  {
    forall i, j :: 0 <= i < j < |rows| ==> rows[i].name != rows[j].name
  }

  /** Both tables have one row for each of the same scenarios, with the same counters, completion rate and latencies. */
  ghost predicate SameScenarios(a: seq<ScenarioResult>, b: seq<ScenarioResult>)
  {
    && OncePerName(a) && OncePerName(b)
    && (forall name :: Reported(a, name) <==> Reported(b, name))
    && (forall i, j :: 0 <= i < |a| && 0 <= j < |b| && a[i].name == b[j].name ==> SameScenario(a[i], b[j]))
  }

  /** A row of the merge, against what was measured of its scenario altogether. */
  lemma PooledRow(row: ScenarioResult, results: seq<ScenarioResult>, log: seq<Entry>, counter: ScenarioCounter,
                  metric: ScenarioMetric)
    requires RowOf(row, results, counter, metric) && Accounts(results, log, row.name, counter, metric)
    requires Accounts(results, log, row.name, counter, ScenarioLatency)
    ensures counter.In(row) == SumBy(ColumnOf(counter).Weight(row.name), log)
    ensures row.completionPercent == Percent(row.completed, row.issued)
    ensures metric.Of(row) == DistributionOf(AllTimings(metric, row.name, log))
  {
    hide Reported, L.Mentioned, SentBy, AllTimings, SumBy, Percent, MergeInOrder, PartsOf, Unmeasured;
    FewerInScenario(metric, row.name, log);
    if SentBy(ScenarioLatency, row.name, results) == [] { UnmeasuredParts(metric, row.name, results); }
  }

  lemma OwnPooledRow(row: ScenarioResult, log: seq<Entry>, all: seq<Entry>, counter: ScenarioCounter,
                     metric: ScenarioMetric)
    requires OwnRow(row, log, counter, metric) && multiset(log) == multiset(all)
    ensures counter.In(row) == SumBy(ColumnOf(counter).Weight(row.name), all)
    ensures row.completionPercent == Percent(row.completed, row.issued)
    ensures metric.Of(row) == DistributionOf(AllTimings(metric, row.name, all))
  {
    hide DistributionOf, AllTimings, Percent, L.Mentioned, SumBy;
    SumByPermutation(ColumnOf(counter).Weight(row.name), log, all);
    AllTimingsPermutation(metric, row.name, log, all);
  }

  lemma FiguresAgree(config: RunConfig, rs: seq<RunResult>, logs: seq<seq<Entry>>, single: RunResult, all: seq<Entry>,
                     a: ScenarioResult, b: ScenarioResult, counter: ScenarioCounter, metric: ScenarioMetric)
    requires ReportLogs(config, rs, logs) && ReportsLog(config, single, all) && multiset(all) == multiset(Flatten(logs))
    requires Fits(all) && a in Merged(config, rs).scenarios && b in single.scenarios && a.name == b.name
    ensures counter.In(a) == counter.In(b) && metric.Of(a) == metric.Of(b)
    ensures a.completionPercent == Percent(a.completed, a.issued)
        && b.completionPercent == Percent(b.completed, b.issued)
  {
    hide ReportsLog, ReportLogs, Fits, Merged, OwnRow, Accounts, RowOf, Percent, DistributionOf, AllTimings;
    PartsFitToo(logs, all);
    ReportedRows(config, single, all, counter, metric);
    assert OwnRow(b, all, counter, metric);
    OwnMentioned(b, all, counter, metric);
    ReportsAccount(config, rs, logs, a.name, counter, metric);
    ReportsAccount(config, rs, logs, a.name, counter, ScenarioLatency);
    MergedScenarios(config, rs, a.name, counter, metric);
    PooledRow(a, AllScenarios(rs), Flatten(logs), counter, metric);
    OwnPooledRow(b, all, Flatten(logs), counter, metric);
  }

  lemma NamesAgree(config: RunConfig, rs: seq<RunResult>, logs: seq<seq<Entry>>, single: RunResult, all: seq<Entry>,
                   name: string)
    requires ReportLogs(config, rs, logs) && ReportsLog(config, single, all) && multiset(all) == multiset(Flatten(logs))
    requires Fits(all) && name != ""
    ensures Reported(Merged(config, rs).scenarios, name) <==> Reported(single.scenarios, name)
  {
    hide ReportsLog, ReportLogs, Fits, Merged, OwnRow, Reported, L.Mentioned;
    PartsFitToo(logs, all);
    ReportedRows(config, single, all, ScenarioCounter.Issued, ScenarioLatency);
    OwnRowsAccount(single.scenarios, all, name, ScenarioCounter.Issued, ScenarioLatency);
    ReportsAccount(config, rs, logs, name, ScenarioCounter.Issued, ScenarioLatency);
    MergedScenarios(config, rs, name, ScenarioCounter.Issued, ScenarioLatency);
    MentionedPermutation(all, Flatten(logs), name);
  }

  lemma Unnamed(config: RunConfig, r: RunResult, log: seq<Entry>)
    requires ReportsLog(config, r, log) && Fits(log)
    ensures !Reported(r.scenarios, "") && OncePerName(r.scenarios)
  {
    hide ReportsLog, Fits, L.Mentioned, OwnRow;
    ReportedRows(config, r, log, ScenarioCounter.Issued, ScenarioLatency);
    forall i | 0 <= i < |r.scenarios| ensures r.scenarios[i].name != "" {
      assert OwnRow(r.scenarios[i], log, ScenarioCounter.Issued, ScenarioLatency);
      OwnMentioned(r.scenarios[i], log, ScenarioCounter.Issued, ScenarioLatency);
    }
  }

  lemma {:induction false} AllUnnamed(config: RunConfig, rs: seq<RunResult>, logs: seq<seq<Entry>>)
    requires ReportLogs(config, rs, logs) && forall i :: 0 <= i < |logs| ==> Fits(logs[i])
    ensures !Reported(AllScenarios(rs), "")
  {
    if rs != [] {
      hide ReportsLog, Fits, Reported, AllScenarios;
      var n := |rs| - 1;
      AllUnnamed(config, rs[..n], logs[..n]);
      Unnamed(config, rs[n], logs[n]);
      AllScenariosLast(rs);
      ReportedConcat(AllScenarios(rs[..n]), rs[n].scenarios, "");
    }
  }

  /** One row per scenario, whichever agents saw it, with the figures of a single process. */
  lemma ScenariosAgree(config: RunConfig, rs: seq<RunResult>, logs: seq<seq<Entry>>, single: RunResult, all: seq<Entry>)
    requires ReportLogs(config, rs, logs) && ReportsLog(config, single, all) && multiset(all) == multiset(Flatten(logs))
    requires Fits(all)
    ensures SameScenarios(Merged(config, rs).scenarios, single.scenarios)
  {
    hide ReportsLog, ReportLogs, Fits, Merged, RowOf, Reported, Percent;
    var rows, own := Merged(config, rs).scenarios, single.scenarios;
    PartsFitToo(logs, all);
    Unnamed(config, single, all);
    AllUnnamed(config, rs, logs);
    MergedScenarios(config, rs, "", ScenarioCounter.Issued, ScenarioLatency);
    forall name ensures Reported(rows, name) <==> Reported(own, name) {
      if name != "" { NamesAgree(config, rs, logs, single, all, name); }
    }
    forall i, j | 0 <= i < |rows| && 0 <= j < |own| && rows[i].name == own[j].name
      ensures SameScenario(rows[i], own[j])
    {
      RowsAgree(config, rs, logs, single, all, rows[i], own[j]);
    }
  }

  lemma RowsAgree(config: RunConfig, rs: seq<RunResult>, logs: seq<seq<Entry>>, single: RunResult, all: seq<Entry>,
                  a: ScenarioResult, b: ScenarioResult)
    requires ReportLogs(config, rs, logs) && ReportsLog(config, single, all) && multiset(all) == multiset(Flatten(logs))
    requires Fits(all) && a in Merged(config, rs).scenarios && b in single.scenarios && a.name == b.name
    ensures SameScenario(a, b)
  {
    hide ReportsLog, ReportLogs, Fits, Merged, Percent;
    forall counter: ScenarioCounter ensures counter.In(a) == counter.In(b) {
      FiguresAgree(config, rs, logs, single, all, a, b, counter, ScenarioLatency);
    }
    FiguresAgree(config, rs, logs, single, all, a, b, ScenarioCounter.Issued, ScenarioLatency);
    FiguresAgree(config, rs, logs, single, all, a, b, ScenarioCounter.Issued, ScenarioTtft);
    assert ScenarioCounter.Issued.In(a) == ScenarioCounter.Issued.In(b);
    assert ScenarioCounter.Completed.In(a) == ScenarioCounter.Completed.In(b);
    assert ScenarioCounter.Failures.In(a) == ScenarioCounter.Failures.In(b);
    assert ScenarioCounter.Cancelled.In(a) == ScenarioCounter.Cancelled.In(b);
    assert ScenarioCounter.OutputTokens.In(a) == ScenarioCounter.OutputTokens.In(b);
    assert ScenarioCounter.InputTokens.In(a) == ScenarioCounter.InputTokens.In(b);
    assert ScenarioLatency.Of(a) == ScenarioLatency.Of(b) && ScenarioTtft.Of(a) == ScenarioTtft.Of(b);
  }

  // ----- seconds

  /** What a column of the merged rows counts. */
  datatype SecondCounter = Requests | Successes | Failures | Issued | Completed | Cancelled
  {
    function On(): T.Column
    {
      match this
      case Requests => T.Column.Requests
      case Successes => T.Column.Successes
      case Failures => T.Column.Failures
      case Issued => T.Column.Issued
      case Completed => T.Column.Completed
      case Cancelled => T.Column.Cancelled
    }

    function In(): L.RowColumn
    {
      match this
      case Requests => L.CompletedAt
      case Successes => L.SuccessesAt
      case Failures => L.FailuresAt
      case Issued => L.IssuedAt
      case Completed => L.CompletedAt
      case Cancelled => L.CancelledAt
    }
  }

  /** Something happened in this second. */
  ghost predicate Busy(log: seq<Entry>, second: int) { exists e :: e in log && L.Happened(e, second) }

  /** The rows count what happened in one second, and there is one if anything did. */
  ghost predicate Tallies(points: seq<TimelinePoint>, log: seq<Entry>, second: int, counter: SecondCounter)
  {
    && (T.HasSecond(points, second) <==> Busy(log, second))
    && SumBy(T.InSecond(counter.On().Read(), second), points) == SumBy(counter.In().Weight(second), log)
  }

  lemma OwnSecond(log: seq<Entry>, config: RunConfig, p: TimelinePoint, counter: SecondCounter)
    requires p in Sorted(Points(Replay(log, config).timeline))
    ensures counter.On().Read()(p) == SumBy(counter.In().Weight(p.second), log)
  {
    hide Replay, P95, Sorted;
    RowInResult(log, config, p, counter.In());
    CompletedRow(log, config, p);
  }

  lemma SecondReported(log: seq<Entry>, config: RunConfig, second: int)
    ensures T.HasSecond(Sorted(Points(Replay(log, config).timeline)), second)
       <==> second in Replay(log, config).timeline
  {
    hide Replay, Sorted;
    SortedSeconds(Replay(log, config).timeline);
  }

  lemma BusySecond(log: seq<Entry>, config: RunConfig, second: int)
    requires InTime(log)
    ensures second in Replay(log, config).timeline <==> Busy(log, second)
  {
    hide Replay, InTime;
    if second in Replay(log, config).timeline { RowsFromLog(log, config, second); }
    if Busy(log, second) {
      var e :| e in log && L.Happened(e, second);
      RowForEach(log, config, e);
    }
  }

  lemma {:induction false} IdleSecond(log: seq<Entry>, second: int, counter: SecondCounter)
    requires !Busy(log, second)
    ensures SumBy(counter.In().Weight(second), log) == 0
  {
    SumOfNone(counter.In().Weight(second), log);
  }

  lemma NoRow(points: seq<TimelinePoint>, second: int, counter: SecondCounter)
    requires !T.HasSecond(points, second)
    ensures SumBy(T.InSecond(counter.On().Read(), second), points) == 0
  {
    SumOfNone(T.InSecond(counter.On().Read(), second), points);
  }

  lemma OwnSeconds(log: seq<Entry>, config: RunConfig, second: int, counter: SecondCounter)
    requires InTime(log)
    ensures Tallies(Sorted(Points(Replay(log, config).timeline)), log, second, counter)
  {
    hide Replay, InTime, Busy, SumBy, T.InSecond, SecondCounter.On, SecondCounter.In;
    var rows := Sorted(Points(Replay(log, config).timeline));
    assert T.Ascending(rows);
    SecondReported(log, config, second);
    BusySecond(log, config, second);
    if T.HasSecond(rows, second) {
      var i :| 0 <= i < |rows| && rows[i].second == second;
      T.RowHoldsItsSecond(rows, i, counter.On().Read());
      OwnSecond(log, config, rows[i], counter);
    } else {
      NoRow(rows, second, counter);
      IdleSecond(log, second, counter);
    }
  }

  lemma ReportedSeconds(config: RunConfig, r: RunResult, log: seq<Entry>, second: int, counter: SecondCounter)
    requires ReportsLog(config, r, log) && InTime(log)
    ensures T.Ascending(r.timeline) && Tallies(r.timeline, log, second, counter)
    ensures forall p :: p in r.timeline ==> counter.On().Read()(p) == SumBy(counter.In().Weight(p.second), log)
  {
    hide Replay, InTime, Points, Tallies, SumBy, SecondCounter.On, SecondCounter.In, SameLimits, DistributionOf, P95;
    hide ScenarioResults, CountsOf, SamplesSent;
    var c: RunConfig, now: Readings :| SameLimits(c, config) && r == ResultOf(Replay(log, c), c, now);
    OwnSeconds(log, c, second, counter);
    forall p | p in r.timeline ensures counter.On().Read()(p) == SumBy(counter.In().Weight(p.second), log) {
      OwnSecond(log, c, p, counter);
    }
  }

  lemma HasSecondConcat(a: seq<TimelinePoint>, b: seq<TimelinePoint>, second: int)
    ensures T.HasSecond(a + b, second) <==> T.HasSecond(a, second) || T.HasSecond(b, second)
  {
    var c := a + b;
    if T.HasSecond(a, second) {
      var i :| 0 <= i < |a| && a[i].second == second;
      assert c[i].second == second;
    }
    if T.HasSecond(b, second) {
      var i :| 0 <= i < |b| && b[i].second == second;
      assert c[|a| + i].second == second;
    }
    if T.HasSecond(c, second) {
      var i :| 0 <= i < |c| && c[i].second == second;
      if i < |a| { assert a[i].second == second; } else { assert b[i - |a|].second == second; }
    }
  }

  lemma BusyConcat(a: seq<Entry>, b: seq<Entry>, second: int)
    ensures Busy(a + b, second) <==> Busy(a, second) || Busy(b, second)
  {
    hide L.Happened;
  }

  lemma TalliesBoth(a: seq<TimelinePoint>, x: seq<Entry>, b: seq<TimelinePoint>, y: seq<Entry>, second: int,
                   counter: SecondCounter)
    requires Tallies(a, x, second, counter) && Tallies(b, y, second, counter)
    ensures Tallies(a + b, x + y, second, counter)
  {
    hide T.HasSecond, Busy, SecondCounter.On, SecondCounter.In, T.InSecond;
    HasSecondConcat(a, b, second);
    BusyConcat(x, y, second);
    SumByConcat(T.InSecond(counter.On().Read(), second), a, b);
    SumByConcat(counter.In().Weight(second), x, y);
  }

  lemma TalliesNothing(points: seq<TimelinePoint>, log: seq<Entry>, second: int, counter: SecondCounter)
    requires points == [] && log == []
    ensures Tallies(points, log, second, counter)
  {
  }

  lemma AllPointsLast(rs: seq<RunResult>)
    requires rs != []
    ensures AllPoints(rs) == AllPoints(rs[..|rs| - 1]) + rs[|rs| - 1].timeline
  {
    var n := |rs| - 1;
    assert rs == rs[..n] + [rs[n]];
    MapSnoc(TimelineOf(), rs[..n], rs[n]);
    FlattenSnoc(Map(TimelineOf(), rs[..n]), rs[n].timeline);
  }

  lemma {:induction false} ReportsCount(config: RunConfig, rs: seq<RunResult>, logs: seq<seq<Entry>>, second: int,
                                        counter: SecondCounter)
    requires ReportLogs(config, rs, logs) && forall i :: 0 <= i < |logs| ==> InTime(logs[i])
    ensures Tallies(AllPoints(rs), Flatten(logs), second, counter)
  {
    hide ReportsLog, InTime, Tallies, T.Ascending, SecondCounter.On, SecondCounter.In;
    if rs == [] {
      assert Map(TimelineOf(), rs) == [];
      TalliesNothing(AllPoints(rs), Flatten(logs), second, counter);
    } else {
      var n := |rs| - 1;
      ReportsCount(config, rs[..n], logs[..n], second, counter);
      ReportedSeconds(config, rs[n], logs[n], second, counter);
      TalliesBoth(AllPoints(rs[..n]), Flatten(logs[..n]), rs[n].timeline, logs[n], second, counter);
      AllPointsLast(rs);
    }
  }

  lemma {:induction false} InTimeParts(logs: seq<seq<Entry>>, i: nat)
    requires InTime(Flatten(logs)) && i < |logs|
    ensures InTime(logs[i])
  {
    var n := |logs| - 1;
    assert forall e :: e in Flatten(logs[..n]) || e in logs[n] ==> e in Flatten(logs);
    if i < n { InTimeParts(logs[..n], i); }
  }

  lemma InTimePermutation(a: seq<Entry>, b: seq<Entry>)
    requires multiset(a) == multiset(b) && InTime(a)
    ensures InTime(b)
  {
    assert forall e :: e in a <==> e in multiset(a);
    assert forall e :: e in b <==> e in multiset(b);
  }

  lemma BusyPermutation(a: seq<Entry>, b: seq<Entry>, second: int)
    requires multiset(a) == multiset(b)
    ensures Busy(a, second) <==> Busy(b, second)
  {
    assert forall e :: e in a <==> e in multiset(a);
    assert forall e :: e in b <==> e in multiset(b);
  }

  /** A row without its gauges, which depend on when each agent read them, and its P95. */
  function Plain(p: TimelinePoint): TimelinePoint { p.(active := 0, waiting := 0, targetLoad := 0, p95 := 0) }

  lemma SecondsAgree(config: RunConfig, rs: seq<RunResult>, logs: seq<seq<Entry>>, single: RunResult, all: seq<Entry>,
                     second: int)
    requires ReportLogs(config, rs, logs) && ReportsLog(config, single, all) && multiset(all) == multiset(Flatten(logs))
    requires InTime(all)
    ensures T.HasSecond(Merged(config, rs).timeline, second) <==> T.HasSecond(single.timeline, second)
  {
    hide ReportsLog, ReportLogs, InTime, T.HasSecond, Busy, T.Ascending, SecondCounter.On, SecondCounter.In;
    InTimePermutation(all, Flatten(logs));
    forall i | 0 <= i < |logs| ensures InTime(logs[i]) { InTimeParts(logs, i); }
    ReportsCount(config, rs, logs, second, Requests);
    ReportedSeconds(config, single, all, second, Requests);
    BusyPermutation(all, Flatten(logs), second);
    MergedRows(config, rs);
    T.MergedTimelineSums(AllPoints(rs), T.Column.Requests, second);
  }

  lemma MergedRows(config: RunConfig, rs: seq<RunResult>)
    ensures Merged(config, rs).timeline == T.MergedTimeline(AllPoints(rs))
    ensures T.Ascending(Merged(config, rs).timeline)
  {
    T.MergedTimelineSeconds(AllPoints(rs), 0);
    hide Summarize, FinishScenarios, Percent, PerSecond, PerRequest, FoldLeft;
  }

  lemma SecondCountersAgree(config: RunConfig, rs: seq<RunResult>, logs: seq<seq<Entry>>, single: RunResult,
                            all: seq<Entry>, p: TimelinePoint, q: TimelinePoint, counter: SecondCounter)
    requires ReportLogs(config, rs, logs) && ReportsLog(config, single, all) && multiset(all) == multiset(Flatten(logs))
    requires InTime(all) && p in Merged(config, rs).timeline && q in single.timeline && p.second == q.second
    ensures counter.On().Read()(p) == counter.On().Read()(q)
  {
    hide ReportsLog, ReportLogs, InTime, T.HasSecond, Busy, T.Ascending, SumBy, T.InSecond, T.MergedTimeline;
    hide SecondCounter.On, SecondCounter.In, Merged;
    InTimePermutation(all, Flatten(logs));
    forall i | 0 <= i < |logs| ensures InTime(logs[i]) { InTimeParts(logs, i); }
    ReportsCount(config, rs, logs, p.second, counter);
    ReportedSeconds(config, single, all, p.second, counter);
    SumByPermutation(counter.In().Weight(p.second), all, Flatten(logs));
    MergedRows(config, rs);
    T.MergedTimelineSums(AllPoints(rs), counter.On(), p.second);
  }

  lemma SecondRowsAgree(config: RunConfig, rs: seq<RunResult>, logs: seq<seq<Entry>>, single: RunResult,
                        all: seq<Entry>, p: TimelinePoint, q: TimelinePoint)
    requires ReportLogs(config, rs, logs) && ReportsLog(config, single, all) && multiset(all) == multiset(Flatten(logs))
    requires InTime(all) && p in Merged(config, rs).timeline && q in single.timeline && p.second == q.second
    ensures Plain(p) == Plain(q)
  {
    hide ReportsLog, ReportLogs, InTime, Merged;
    forall counter: SecondCounter ensures counter.On().Read()(p) == counter.On().Read()(q) {
      SecondCountersAgree(config, rs, logs, single, all, p, q, counter);
    }
    assert SecondCounter.Requests.On().Read()(p) == SecondCounter.Requests.On().Read()(q);
    assert SecondCounter.Successes.On().Read()(p) == SecondCounter.Successes.On().Read()(q);
    assert SecondCounter.Failures.On().Read()(p) == SecondCounter.Failures.On().Read()(q);
    assert SecondCounter.Issued.On().Read()(p) == SecondCounter.Issued.On().Read()(q);
    assert SecondCounter.Completed.On().Read()(p) == SecondCounter.Completed.On().Read()(q);
    assert SecondCounter.Cancelled.On().Read()(p) == SecondCounter.Cancelled.On().Read()(q);
  }

  function PlainRow(): TimelinePoint -> TimelinePoint { (p: TimelinePoint) => Plain(p) }

  lemma FirstSeconds(a: seq<TimelinePoint>, b: seq<TimelinePoint>)
    requires T.Ascending(a) && T.Ascending(b) && a != []
    requires forall second :: T.HasSecond(a, second) <==> T.HasSecond(b, second)
    ensures b != [] && a[0].second == b[0].second
    ensures forall second :: T.HasSecond(a[1..], second) <==> T.HasSecond(b[1..], second)
  {
    assert T.HasSecond(a, a[0].second);
    assert T.HasSecond(b, b[0].second);
    forall second ensures T.HasSecond(a[1..], second) <==> T.HasSecond(b[1..], second) {
      LaterSeconds(a, second);
      LaterSeconds(b, second);
    }
  }

  lemma LaterSeconds(t: seq<TimelinePoint>, second: int)
    requires T.Ascending(t) && t != []
    ensures T.HasSecond(t[1..], second) <==> T.HasSecond(t, second) && second != t[0].second
  {
    assert t == [t[0]] + t[1..];
    T.HasSecondCons(t[0], t[1..], second);
    assert forall i :: 0 <= i < |t| - 1 ==> t[1..][i] == t[i + 1];
  }

  /** Where both lists have a row for one second, the rows are the same. */
  ghost predicate Matching(a: seq<TimelinePoint>, b: seq<TimelinePoint>)
  {
    forall p, q :: p in a && q in b && p.second == q.second ==> Plain(p) == Plain(q)
  }

  lemma MatchingRest(a: seq<TimelinePoint>, b: seq<TimelinePoint>)
    requires Matching(a, b) && a != [] && b != [] && a[0].second == b[0].second
    ensures Plain(a[0]) == Plain(b[0]) && Matching(a[1..], b[1..])
  {
    hide Plain;
    assert a[0] in a && b[0] in b;
  }

  lemma FirstSecond(t: seq<TimelinePoint>)
    ensures t != [] ==> T.HasSecond(t, t[0].second)
  {
  }

  lemma PlainCons(t: seq<TimelinePoint>)
    requires t != []
    ensures Map(PlainRow(), t) == [Plain(t[0])] + Map(PlainRow(), t[1..])
  {
    hide Plain;
  }

  /** Two lists of rows with the same seconds and the same row for each of them are the same. */
  lemma {:induction false} SameRows(a: seq<TimelinePoint>, b: seq<TimelinePoint>)
    requires T.Ascending(a) && T.Ascending(b) && Matching(a, b)
    requires forall second :: T.HasSecond(a, second) <==> T.HasSecond(b, second)
    ensures Map(PlainRow(), a) == Map(PlainRow(), b)
    decreases |a|
  {
    if a == [] {
      FirstSecond(b);
    } else {
      hide T.HasSecond, Plain, Matching;
      FirstSeconds(a, b);
      MatchingRest(a, b);
      SameRows(a[1..], b[1..]);
      PlainCons(a);
      PlainCons(b);
    }
  }

  lemma TimelinesAgree(config: RunConfig, rs: seq<RunResult>, logs: seq<seq<Entry>>, single: RunResult, all: seq<Entry>)
    requires ReportLogs(config, rs, logs) && ReportsLog(config, single, all) && multiset(all) == multiset(Flatten(logs))
    requires InTime(all)
    ensures Map(PlainRow(), Merged(config, rs).timeline) == Map(PlainRow(), single.timeline)
  {
    hide ReportsLog, ReportLogs, InTime, Merged, T.HasSecond, T.Ascending, Plain;
    MergedRows(config, rs);
    ReportedSeconds(config, single, all, 0, Requests);
    forall second
      ensures T.HasSecond(Merged(config, rs).timeline, second) <==> T.HasSecond(single.timeline, second)
    {
      SecondsAgree(config, rs, logs, single, all, second);
    }
    forall p, q | p in Merged(config, rs).timeline && q in single.timeline && p.second == q.second
      ensures Plain(p) == Plain(q)
    {
      SecondRowsAgree(config, rs, logs, single, all, p, q);
    }
    assert Matching(Merged(config, rs).timeline, single.timeline);
    SameRows(Merged(config, rs).timeline, single.timeline);
  }

  // ----- the P95 of a second

  lemma AllKept(values: seq<nat>)
    requires |values| <= MAX_SECOND_SAMPLES
    ensures L.FirstOnes(values) == values
  {
  }

  lemma RowOfPoint(t: Timeline, p: TimelinePoint)
    requires p in Sorted(Points(t))
    ensures p.second in t && p.p95 == P95(t[p.second].latencies)
  {
    hide P95;
  }

  lemma RowP95(log: seq<Entry>, config: RunConfig, p: TimelinePoint)
    requires p in Sorted(Points(Replay(log, config).timeline))
    requires |L.LatenciesAt(p.second, log)| <= MAX_SECOND_SAMPLES
    ensures p.p95 == P95(L.LatenciesAt(p.second, log))
  {
    hide Replay, P95, L.LatenciesAt, L.FirstOnes, Sorted, Points;
    L.TimelineCounts(log, config, p.second);
    RowOfPoint(Replay(log, config).timeline, p);
    AllKept(L.LatenciesAt(p.second, log));
  }

  lemma ReportedP95(config: RunConfig, r: RunResult, log: seq<Entry>, p: TimelinePoint)
    requires ReportsLog(config, r, log) && p in r.timeline
    requires |L.LatenciesAt(p.second, log)| <= MAX_SECOND_SAMPLES
    ensures p.p95 == P95(L.LatenciesAt(p.second, log))
  {
    hide Replay, Points, SameLimits, DistributionOf, P95, ScenarioResults, CountsOf, SamplesSent, L.LatenciesAt;
    var c: RunConfig, now: Readings :| SameLimits(c, config) && r == ResultOf(Replay(log, c), c, now);
    RowP95(log, c, p);
  }

  lemma LatenciesAtConcat(second: int, a: seq<Entry>, b: seq<Entry>)
    ensures L.LatenciesAt(second, a + b) == L.LatenciesAt(second, a) + L.LatenciesAt(second, b)
  {
    var from := L.FinishedAt(second);
    assert Map(from, a + b) == Map(from, a) + Map(from, b);
    FlattenConcat(Map(from, a), Map(from, b));
  }

  lemma LatenciesAtPermutation(second: int, a: seq<Entry>, b: seq<Entry>)
    requires multiset(a) == multiset(b)
    ensures P95(L.LatenciesAt(second, a)) == P95(L.LatenciesAt(second, b))
    ensures |L.LatenciesAt(second, a)| == |L.LatenciesAt(second, b)|
  {
    hide DistributionOf;
    var from := L.FinishedAt(second);
    MapPermutation(from, a, b);
    FlattenPermutation(Map(from, a), Map(from, b));
    DistributionPermutation(L.LatenciesAt(second, a), L.LatenciesAt(second, b));
    assert |L.LatenciesAt(second, a)| == |multiset(L.LatenciesAt(second, a))|;
    assert |L.LatenciesAt(second, b)| == |multiset(L.LatenciesAt(second, b))|;
  }

  /** 95 percent of the values are at or below `v`, exactly when their P95 is. */
  lemma P95IsLeastCover(values: seq<nat>, v: nat)
    ensures P95(values) <= v <==> Covers(values, 95, v)
  {
    if values == [] {
      NoValues();
      assert SumBy(AtMost(v), values) == 0;
    } else {
      DistributionPercentiles(values, v);
    }
    hide DistributionOf;
  }

  /** Of each agent's requests in a second, 95 percent took at most `v`. */
  ghost predicate AllCovered(logs: seq<seq<Entry>>, second: int, v: nat)
  {
    forall i :: 0 <= i < |logs| ==> Covers(L.LatenciesAt(second, logs[i]), 95, v)
  }

  lemma {:induction false} CoveredTogether(logs: seq<seq<Entry>>, second: int, v: nat)
    requires AllCovered(logs, second, v)
    ensures Covers(L.LatenciesAt(second, Flatten(logs)), 95, v)
  {
    if logs == [] {
      P95IsLeastCover(L.LatenciesAt(second, Flatten(logs)), v);
      NothingCovered(second, v);
    } else {
      hide Covers, L.LatenciesAt;
      var n := |logs| - 1;
      CoveredTogether(logs[..n], second, v);
      FlattenLast(logs);
      LatenciesAtConcat(second, Flatten(logs[..n]), logs[n]);
      CoversBoth(L.LatenciesAt(second, Flatten(logs[..n])), L.LatenciesAt(second, logs[n]), 95, v, v);
    }
  }

  lemma NothingCovered(second: int, v: nat)
    ensures L.LatenciesAt(second, []) == [] && Covers([], 95, v)
  {
    assert Map(L.FinishedAt(second), []) == [];
    P95IsLeastCover([], v);
    NoValues();
  }

  lemma {:induction false} FewerLatencies(logs: seq<seq<Entry>>, i: nat, second: int)
    requires i < |logs|
    ensures |L.LatenciesAt(second, logs[i])| <= |L.LatenciesAt(second, Flatten(logs))|
  {
    hide L.LatenciesAt;
    var n := |logs| - 1;
    FlattenLast(logs);
    LatenciesAtConcat(second, Flatten(logs[..n]), logs[n]);
    if i < n { FewerLatencies(logs[..n], i, second); }
  }

  /** What one agent finished in the second of a merged row. */
  lemma PartCovered(config: RunConfig, rs: seq<RunResult>, logs: seq<seq<Entry>>, i: nat, p: TimelinePoint)
    requires ReportLogs(config, rs, logs) && i < |rs| && InTime(logs[i]) && p in Merged(config, rs).timeline
    requires |L.LatenciesAt(p.second, Flatten(logs))| <= MAX_SECOND_SAMPLES
    ensures Covers(L.LatenciesAt(p.second, logs[i]), 95, p.p95)
  {
    hide ReportsLog, InTime, Merged, L.LatenciesAt, T.MergedTimeline, Covers, P95, T.Ascending, Busy;
    FewerLatencies(logs, i, p.second);
    ReportedSeconds(config, rs[i], logs[i], p.second, Requests);
    P95IsLeastCover(L.LatenciesAt(p.second, logs[i]), p.p95);
    if T.HasSecond(rs[i].timeline, p.second) {
      var j :| 0 <= j < |rs[i].timeline| && rs[i].timeline[j].second == p.second;
      var x := rs[i].timeline[j];
      ReportedP95(config, rs[i], logs[i], x);
      MergedRows(config, rs);
      T.MergedTimelineWorst(AllPoints(rs), p);
      assert Map(TimelineOf(), rs)[i] == rs[i].timeline;
      InFlatten(Map(TimelineOf(), rs), i, x);
      var k :| 0 <= k < |AllPoints(rs)| && AllPoints(rs)[k] == x;
      assert x.p95 <= p.p95;
    } else {
      IdleLatencies(logs[i], p.second);
      NoValues();
      NothingCovered(p.second, p.p95);
    }
  }

  lemma IdleLatencies(log: seq<Entry>, second: int)
    requires !Busy(log, second)
    ensures L.LatenciesAt(second, log) == []
  {
    forall i | 0 <= i < |log| ensures !L.Happened(log[i], second) { assert log[i] in log; }
    L.NothingInSecond(log, second, L.IssuedAt);
  }

  /** The P95 of a merged second is never below a single process's, as long as the row could keep every latency. */
  lemma SecondP95NeverTooLow(config: RunConfig, rs: seq<RunResult>, logs: seq<seq<Entry>>, single: RunResult,
                             all: seq<Entry>, p: TimelinePoint, q: TimelinePoint)
    requires ReportLogs(config, rs, logs) && ReportsLog(config, single, all) && multiset(all) == multiset(Flatten(logs))
    requires InTime(all) && p in Merged(config, rs).timeline && q in single.timeline && p.second == q.second
    requires |L.LatenciesAt(q.second, all)| <= MAX_SECOND_SAMPLES
    ensures q.p95 <= p.p95
  {
    hide ReportsLog, InTime, Merged, L.LatenciesAt, P95, Covers;
    InTimePermutation(all, Flatten(logs));
    LatenciesAtPermutation(p.second, all, Flatten(logs));
    forall i | 0 <= i < |logs| ensures Covers(L.LatenciesAt(p.second, logs[i]), 95, p.p95) {
      InTimeParts(logs, i);
      PartCovered(config, rs, logs, i, p);
    }
    CoveredTogether(logs, p.second, p.p95);
    P95IsLeastCover(L.LatenciesAt(p.second, Flatten(logs)), p.p95);
    ReportedP95(config, single, all, q);
  }

  // ----- the promise

  lemma P95sAgree(config: RunConfig, rs: seq<RunResult>, logs: seq<seq<Entry>>, single: RunResult, all: seq<Entry>)
    requires ReportLogs(config, rs, logs) && ReportsLog(config, single, all) && multiset(all) == multiset(Flatten(logs))
    requires InTime(all)
    ensures P95sCautious(Merged(config, rs).timeline, single.timeline, all)
  {
    hide ReportsLog, ReportLogs, InTime, Merged, L.LatenciesAt;
    forall p, q | p in Merged(config, rs).timeline && q in single.timeline && p.second == q.second
                  && |L.LatenciesAt(q.second, all)| <= MAX_SECOND_SAMPLES
      ensures q.p95 <= p.p95
    {
      SecondP95NeverTooLow(config, rs, logs, single, all, p, q);
    }
  }

  /** No P95 is too low for a second in which no more requests finished than a row keeps latencies. */
  ghost predicate P95sCautious(merged: seq<TimelinePoint>, own: seq<TimelinePoint>, log: seq<Entry>)
  {
    forall p, q | p in merged && q in own && p.second == q.second ::
      |L.LatenciesAt(q.second, log)| <= MAX_SECOND_SAMPLES ==> q.p95 <= p.p95
  }

  /** However the requests were spread over agents: the controller lists the scenarios of a single process with its
      counters, completion rates and latencies, and the seconds of a single process with its counters and no P95 that is
      too low. */
  lemma TablesAreSingleProcess(config: RunConfig, agents: seq<AgentRun>, single: AgentRun)
    requires SameLimits(single.config, config)
    requires forall i :: 0 <= i < |agents| ==> SameLimits(agents[i].config, config)
    requires multiset(single.log) == multiset(Flatten(LogsOf(agents)))
    ensures var merged, own := Merged(config, ReportsFrom(agents)), single.Report();
            && (Fits(single.log) ==> SameScenarios(merged.scenarios, own.scenarios))
            && (InTime(single.log) ==> Map(PlainRow(), merged.timeline) == Map(PlainRow(), own.timeline))
            && (InTime(single.log) ==> P95sCautious(merged.timeline, own.timeline, single.log))
  {
    hide Merged, Fits, InTime, AgentRun.Report, SameLimits, SameScenarios, P95sCautious;
    ReportsOfAgents(config, agents);
    ReportOfAgent(config, single);
    if Fits(single.log) {
      ScenariosAgree(config, ReportsFrom(agents), LogsOf(agents), single.Report(), single.log);
    }
    if InTime(single.log) {
      TimelinesAgree(config, ReportsFrom(agents), LogsOf(agents), single.Report(), single.log);
      P95sAgree(config, ReportsFrom(agents), LogsOf(agents), single.Report(), single.log);
    }
  }
}
