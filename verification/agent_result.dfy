/** The result an agent reports for its shard (internal/agent/runner.go, `result`), and how it agrees
    with what happened. */
module AgentResult {
  import opened Core
  import opened Folds
  import opened OrderStatistics
  import opened TimelineMerge
  import opened ShardMerge
  import opened Ledgers
  import opened LedgerProperties
  import opened Measurement
  import Lifecycle = RequestLifecycle
  import Merging = MergeProperties

  /** What is read off the clock and the backoff counters at the end of a run. */
  datatype Readings = Readings(
    elapsed: real, steadySeconds: nat, drainedSeconds: nat, backoffEvents: nat, backoffSeconds: real)

  /** The request rate is divided without looking at the time. */
  function Over(count: nat, elapsed: real): Float
  {
    if elapsed != 0.0 then Number(count as real / elapsed) else if count > 0 then Infinite else NotANumber
  }

  function Rate(count: nat, elapsed: real): real { if elapsed > 0.0 then count as real / elapsed else 0.0 }

  function CountsOf(t: Totals): Counts
  {
    var failures := t.httpFailures + t.transportErrors;
    Counts(t.successes, failures, t.successes + failures, t.dropped, t.sessions, t.completedSessions, t.issued,
           t.successes + t.httpFailures, t.cancelled, t.httpFailures, t.transportErrors, t.steadySamples,
           t.missingUsage, t.contentChunks, t.tokens.prompt, t.tokens.completion, t.tokens.reasoning)
  }

  function PointOf(second: int, r: Row): TimelinePoint
  {
    TimelinePoint(second, r.successes + r.failures, r.successes, r.failures, r.issued, r.completed, r.cancelled,
                  r.active, r.waiting, r.targetLoad, P95(r.latencies))
  }

  function Points(t: Timeline): map<int, TimelinePoint> { map second | second in t :: PointOf(second, t[second]) }

  ghost predicate Keyed(rows: map<int, TimelinePoint>)
  {
    forall second :: second in rows ==> rows[second].second == second
  }

  lemma SortedStep(rows: map<int, TimelinePoint>, second: int, t: seq<TimelinePoint>)
    requires Keyed(rows) && second in rows && Represents(rows - {second}, t)
    ensures Represents(rows, AddPoint(t, rows[second]))
  {
    RepresentsAdd(rows - {second}, t, rows[second]);
    assert MergePoint(NO_POINT, rows[second]) == rows[second];
    assert (rows - {second})[second := rows[second]] == rows;
  }

  /** The rows of a map by second; there is only one such list. */
  ghost function Sorted(rows: map<int, TimelinePoint>): (t: seq<TimelinePoint>)
    requires Keyed(rows)
    ensures Represents(rows, t)
    decreases |rows|
  {
    hide AddPoint, MergePoint;
    if exists second :: second in rows then
      var second :| second in rows;
      FewerRows(rows, second);
      var t := Sorted(rows - {second});
      SortedStep(rows, second, t);
      AddPoint(t, rows[second])
    else
      []
  }

  lemma FewerRows(rows: map<int, TimelinePoint>, second: int)
    requires second in rows
    ensures |rows - {second}| < |rows|
  {
    assert (rows - {second}).Keys == rows.Keys - {second};
  }

  function SamplesOfScenario(r: ScenarioRow): Option<RunSamples>
  {
    if |r.latencies.values| > 0 || |r.ttfts.values| > 0 then
      Some(RunSamples(r.latencies.values, r.ttfts.values, [], [], [], r.latencies.decimated || r.ttfts.decimated))
    else None
  }

  function ScenarioResultOf(name: string, r: ScenarioRow, elapsed: real): ScenarioResult
  {
    ScenarioResult(name, r.issued, r.completed, r.failures, r.cancelled, Percent(r.completed, r.issued),
                   DistributionOf(r.latencies.values), DistributionOf(r.ttfts.values), r.outputTokens,
                   Rate(r.outputTokens, elapsed), r.inputTokens, SamplesOfScenario(r))
  }

  function ScenarioResults(t: ScenarioTable, elapsed: real): seq<ScenarioResult>
  {
    seq(|t.order|, i requires 0 <= i < |t.order| => ScenarioResultOf(t.order[i], ScenarioRowOf(t, t.order[i]), elapsed))
  }

  /** The raw samples that go to the controller, if there are any. */
  function SamplesSent(s: Samples): Option<RunSamples>
  {
    if |s.latencies.values| > 0 || |s.ttfts.values| > 0 || |s.itls.values| > 0 then
      Some(RunSamples(s.latencies.values, s.ttfts.values, s.ttfos.values, s.itls.values, s.tpots.values,
                      s.latencies.decimated || s.ttfts.decimated || s.ttfos.decimated || s.itls.decimated
                      || s.tpots.decimated))
    else None
  }

  ghost function ResultOf(l: Ledger, config: RunConfig, now: Readings): RunResult
  {
    var c, s, sent := CountsOf(l.totals), l.samples, SamplesSent(l.samples);
    RunResult(
      c, P95(s.latencies.values), P95(s.ttfts.values), Over(c.total, now.elapsed), DistributionOf(s.latencies.values),
      DistributionOf(s.ttfts.values), DistributionOf(s.ttfos.values), DistributionOf(s.itls.values),
      DistributionOf(s.tpots.values), Rate(c.completionTokens, now.elapsed), Percent(l.totals.goodput, c.total),
      l.stopped, l.guardrail, l.statusCounts, l.errors, Sorted(Points(l.timeline)), "", Percent(c.completed, c.issued),
      now.steadySeconds, now.drainedSeconds, ScenarioResults(l.scenarios, now.elapsed), sent, config.ignoreEos,
      config.accumulateContext, sent.Some? && sent.value.decimated, config.mode == RPS,
      DistributionOf(s.generatorDelays.values), now.backoffEvents, now.backoffSeconds)
  }

  method ReportScenarios(order: seq<string>, rows: map<string, ScenarioRow>, elapsed: real)
    returns (results: seq<ScenarioResult>)
    ensures results == ScenarioResults(ScenarioTable(rows, order), elapsed)
  {
    hide DistributionOf;
    results := [];
    for i := 0 to |order|
      invariant |results| == i
      invariant forall j :: 0 <= j < i ==>
                  results[j] == ScenarioResultOf(order[j], ScenarioRowOf(ScenarioTable(rows, order), order[j]), elapsed)
    {
      var entry := if order[i] in rows then rows[order[i]] else NO_SCENARIO_ROW;
      var latency := Distribute(entry.latencies.values);
      var ttft := Distribute(entry.ttfts.values);
      results := results + [ScenarioResult(
        order[i], entry.issued, entry.completed, entry.failures, entry.cancelled,
        Percent(entry.completed, entry.issued), latency, ttft, entry.outputTokens,
        Rate(entry.outputTokens, elapsed), entry.inputTokens, SamplesOfScenario(entry))];
    }
  }

  method Result(m: Measurements, now: Readings) returns (result: RunResult)
    ensures result == ResultOf(m.Value(), m.config, now)
  {
    hide DistributionOf, Sorted, ScenarioResults;
    var rows := Points(m.timeline);
    var timeline := SortedTimeline(rows, Sorted(rows));
    var scenarios := ReportScenarios(m.scenarioOrder, m.scenarios, now.elapsed);
    var s, c, sent := m.samples, CountsOf(m.totals), SamplesSent(m.samples);
    var latency := Distribute(s.latencies.values);
    var ttft := Distribute(s.ttfts.values);
    var ttfo := Distribute(s.ttfos.values);
    var itl := Distribute(s.itls.values);
    var tpot := Distribute(s.tpots.values);
    var delay := Distribute(s.generatorDelays.values);
    result := RunResult(
      c, latency.p95, ttft.p95, Over(c.total, now.elapsed), latency, ttft, ttfo, itl, tpot,
      Rate(c.completionTokens, now.elapsed), Percent(m.totals.goodput, c.total), m.stopped, m.guardrail, m.statusCounts,
      m.errors, timeline, "", Percent(c.completed, c.issued), now.steadySeconds, now.drainedSeconds, scenarios, sent,
      m.config.ignoreEos, m.config.accumulateContext, sent.Some? && sent.value.decimated, m.config.mode == RPS, delay,
      now.backoffEvents, now.backoffSeconds);
  }

  // ----- the lifecycle in the result

  /** What an agent reports while requests are still under way accounts for them; once none are, the
      README's rule holds. */
  lemma ResultConserves(trace: seq<Lifecycle.Agent>, actions: seq<Lifecycle.Action>, i: nat, config: RunConfig,
                        now: Readings)
    requires Lifecycle.History(trace, actions) && i < |trace|
    ensures var c := ResultOf(Replay(trace[i].log, config), config, now).counts;
            && c.issued == c.successes + c.httpFailures + c.transportErrors + c.cancelled + |trace[i].inFlight|
            && (trace[i].inFlight == map[] ==> Balanced(c))
  {
    hide Replay, DistributionOf, Sorted, ScenarioResults;
    Lifecycle.LifecycleConserved(trace, actions, i, config);
  }

  lemma {:induction false} SumsBelow(f: Entry -> int, g: Entry -> int, log: seq<Entry>)
    requires forall e :: f(e) <= g(e)
    ensures SumBy(f, log) <= SumBy(g, log)
  {
    if log != [] { SumsBelow(f, g, log[1..]); }
  }

  /** Goodput counts SLO-meeting requests, all of them successes, against everything that finished. */
  lemma ResultGoodput(log: seq<Entry>, config: RunConfig, now: Readings)
    ensures Merging.GoodputOf(ResultOf(Replay(log, config), config, now), Replay(log, config).totals.goodput)
  {
    var met, ok := LedgerCounter.Goodput.Weight(config), LedgerCounter.Successes.Weight(config);
    CountersCount(log, config, LedgerCounter.Goodput);
    CountersCount(log, config, LedgerCounter.Successes);
    hide Replay, DistributionOf, Sorted, ScenarioResults, MeetsSlo, Percent;
    SumsBelow(met, ok, log);
  }

  // ----- the timeline in the result

  function OnPoint(column: RowColumn): TimelinePoint -> int
  {
    match column
    case IssuedAt => (p: TimelinePoint) => p.issued
    case SuccessesAt => (p: TimelinePoint) => p.successes
    case FailuresAt => (p: TimelinePoint) => p.failures
    case CancelledAt => (p: TimelinePoint) => p.cancelled
    case CompletedAt => (p: TimelinePoint) => p.completed
  }

  /** The run counter a column belongs to. A second's completed requests include transport errors; the run's do not. */
  function TotalOf(column: RowColumn, c: Counts): int
  {
    match column
    case IssuedAt => c.issued
    case SuccessesAt => c.successes
    case FailuresAt => c.failures
    case CancelledAt => c.cancelled
    case CompletedAt => c.total
  }

  /** A column over the entries of some seconds. */
  function Within(column: RowColumn, seconds: set<int>): Entry -> int
  {
    (e: Entry) => if e.Timed() && e.second in seconds then column.Of(e) else 0
  }

  /** What happened in seconds that have no row. */
  function Lost(column: RowColumn, t: Timeline): Entry -> int
  {
    (e: Entry) => if e.Timed() && e.second !in t then column.Of(e) else 0
  }

  function Whole(column: RowColumn): Entry -> int { (e: Entry) => column.Of(e) }

  ghost function SecondsOf(rows: seq<TimelinePoint>): set<int> { set i | 0 <= i < |rows| :: rows[i].second }

  lemma SecondsOfCons(rows: seq<TimelinePoint>)
    requires rows != [] && Ascending(rows)
    ensures SecondsOf(rows) == {rows[0].second} + SecondsOf(rows[1..]) && rows[0].second !in SecondsOf(rows[1..])
  {
    var rest := rows[1..];
    assert forall i :: 0 <= i < |rest| ==> rest[i] == rows[i + 1];
    forall s | s in SecondsOf(rows) ensures s in {rows[0].second} + SecondsOf(rest) {
      var i :| 0 <= i < |rows| && rows[i].second == s;
      if i > 0 { assert rest[i - 1].second == s; }
    }
  }

  lemma SplitSeconds(column: RowColumn, second: int, seconds: set<int>, log: seq<Entry>)
    requires second !in seconds
    ensures SumBy(Within(column, {second} + seconds), log)
         == SumBy(column.Weight(second), log) + SumBy(Within(column, seconds), log)
  {
    var one, rest, all := column.Weight(second), Within(column, seconds), Within(column, {second} + seconds);
    forall e ensures all(e) == one(e) + rest(e) {
      assert one(e) == if Happened(e, second) then column.Of(e) else 0;
      assert rest(e) == if e.Timed() && e.second in seconds then column.Of(e) else 0;
    }
    Lifecycle.SumsAdd(one, rest, all, log);
  }

  lemma {:induction false} RowsAddUp(rows: seq<TimelinePoint>, column: RowColumn, log: seq<Entry>)
    requires Ascending(rows)
    requires forall p :: p in rows ==> OnPoint(column)(p) == SumBy(column.Weight(p.second), log)
    ensures SumBy(OnPoint(column), rows) == SumBy(Within(column, SecondsOf(rows)), log)
  {
    if rows == [] {
      assert SecondsOf(rows) == {};
      NoSeconds(column, log);
    } else {
      hide OnPoint, Within;
      RowsAddUp(rows[1..], column, log);
      SecondsOfCons(rows);
      SplitSeconds(column, rows[0].second, SecondsOf(rows[1..]), log);
    }
  }

  lemma {:induction false} NoSeconds(column: RowColumn, log: seq<Entry>)
    ensures SumBy(Within(column, {}), log) == 0
  {
    if log != [] { NoSeconds(column, log[1..]); }
  }

  lemma SortedSeconds(t: Timeline)
    ensures SecondsOf(Sorted(Points(t))) == t.Keys
  {
    var rows := Sorted(Points(t));
    forall s | s in SecondsOf(rows) ensures s in t {
      var i :| 0 <= i < |rows| && rows[i].second == s;
      assert rows[i] in rows;
    }
    forall s | s in t ensures s in SecondsOf(rows) {
      assert Points(t)[s] in rows;
      var i :| 0 <= i < |rows| && rows[i] == Points(t)[s];
      assert rows[i].second == s;
    }
  }

  lemma RowInResult(log: seq<Entry>, config: RunConfig, p: TimelinePoint, column: RowColumn)
    requires p in Sorted(Points(Replay(log, config).timeline))
    ensures OnPoint(column)(p) == SumBy(column.Weight(p.second), log)
  {
    TimelineCounts(log, config, p.second);
    hide Replay, P95;
  }

  lemma TotalIsSum(log: seq<Entry>, config: RunConfig, column: RowColumn)
    ensures TotalOf(column, CountsOf(Replay(log, config).totals)) == SumBy(Whole(column), log)
  {
    CountersCount(log, config, LedgerCounter.Issued);
    CountersCount(log, config, LedgerCounter.Successes);
    CountersCount(log, config, LedgerCounter.HttpFailures);
    CountersCount(log, config, LedgerCounter.TransportErrors);
    CountersCount(log, config, LedgerCounter.Cancelled);
    hide Replay;
    var i, s := LedgerCounter.Issued.Weight(config), LedgerCounter.Successes.Weight(config);
    var h, t := LedgerCounter.HttpFailures.Weight(config), LedgerCounter.TransportErrors.Weight(config);
    var failures := Lifecycle.Plus(h, t);
    Lifecycle.SumsAdd(h, t, failures, log);
    match column
    case IssuedAt => Lifecycle.SumsAlike(i, Whole(column), log);
    case SuccessesAt => Lifecycle.SumsAlike(s, Whole(column), log);
    case FailuresAt => Lifecycle.SumsAlike(failures, Whole(column), log);
    case CancelledAt => Lifecycle.SumsAlike(LedgerCounter.Cancelled.Weight(config), Whole(column), log);
    case CompletedAt => Lifecycle.SumsAdd(s, failures, Whole(column), log);
  }

  /** The reported timeline against the reported totals: each column adds up to its counter, less what fell into seconds
      that found no room. There is a row per second, in order, never more than the cap, and its completed requests are
      its successes and failures. */
  lemma TimelineAgrees(log: seq<Entry>, config: RunConfig, now: Readings, column: RowColumn)
    ensures var l, r := Replay(log, config), ResultOf(Replay(log, config), config, now);
            && Ascending(r.timeline) && |r.timeline| == |l.timeline| <= MAX_TIMELINE_POINTS
            && SumBy(OnPoint(column), r.timeline) + SumBy(Lost(column, l.timeline), log) == TotalOf(column, r.counts)
            && forall p :: p in r.timeline ==> p.completed == p.requests == p.successes + p.failures
  {
    var l := Replay(log, config);
    var rows := Sorted(Points(l.timeline));
    forall p | p in rows ensures OnPoint(column)(p) == SumBy(column.Weight(p.second), log) {
      RowInResult(log, config, p, column);
    }
    forall p | p in rows ensures p.completed == p.requests == p.successes + p.failures {
      CompletedRow(log, config, p);
    }
    TimelineCounts(log, config, 0);
    TotalIsSum(log, config, column);
    hide Replay, DistributionOf, ScenarioResults, RowOk, Sorted, OnPoint;
    RowsAddUp(rows, column, log);
    SortedSeconds(l.timeline);
    RowsPerSecond(rows);
    LostOrKept(log, l.timeline, column);
  }

  lemma LostOrKept(log: seq<Entry>, t: Timeline, column: RowColumn)
    ensures SumBy(Whole(column), log) == SumBy(Within(column, t.Keys), log) + SumBy(Lost(column, t), log)
  {
    var kept, lost, all := Within(column, t.Keys), Lost(column, t), Whole(column);
    forall e ensures all(e) == kept(e) + lost(e) {
      assert kept(e) == if e.Timed() && e.second in t.Keys then column.Of(e) else 0;
      assert lost(e) == if e.Timed() && e.second !in t then column.Of(e) else 0;
    }
    Lifecycle.SumsAdd(kept, lost, all, log);
  }

  lemma CompletedRow(log: seq<Entry>, config: RunConfig, p: TimelinePoint)
    requires p in Sorted(Points(Replay(log, config).timeline))
    ensures p.completed == p.requests == p.successes + p.failures
  {
    hide Replay, P95, Sorted, RowOk;
    RowInResult(log, config, p, CompletedAt);
    RowInResult(log, config, p, SuccessesAt);
    RowInResult(log, config, p, FailuresAt);
    CompletedIsBoth(log, p.second);
    RequestsAreBoth(Replay(log, config).timeline, p);
  }

  lemma RequestsAreBoth(t: Timeline, p: TimelinePoint)
    requires p in Sorted(Points(t))
    ensures p.requests == p.successes + p.failures
  {
  }

  lemma CompletedIsBoth(log: seq<Entry>, second: int)
    ensures SumBy(CompletedAt.Weight(second), log)
         == SumBy(SuccessesAt.Weight(second), log) + SumBy(FailuresAt.Weight(second), log)
  {
    Lifecycle.SumsAdd(SuccessesAt.Weight(second), FailuresAt.Weight(second), CompletedAt.Weight(second), log);
  }

  lemma {:induction false} RowsPerSecond(rows: seq<TimelinePoint>)
    requires Ascending(rows)
    ensures |rows| == |SecondsOf(rows)|
  {
    if rows != [] {
      RowsPerSecond(rows[1..]);
      SecondsOfCons(rows);
    }
  }

  // ----- when nothing is lost

  function Seconds(n: nat): (s: set<int>)
    ensures |s| == n && forall x :: x in s <==> 0 <= x < n
  {
    if n == 0 then {} else Seconds(n - 1) + {n - 1}
  }

  lemma SmallerSet(a: set<int>, b: set<int>)
    requires a <= b
    ensures |a| <= |b|
  {
    assert b == a + (b - a);
  }

  lemma {:induction false} RowsFromLog(log: seq<Entry>, config: RunConfig, second: int)
    requires second in Replay(log, config).timeline
    ensures exists i :: 0 <= i < |log| && Happened(log[i], second)
  {
    var n := |log| - 1;
    LastEntry(log, config);
    hide Apply;
    if second in Replay(log[..n], config).timeline {
      RowsFromLog(log[..n], config, second);
      var i :| 0 <= i < n && Happened(log[..n][i], second);
      assert log[i] == log[..n][i];
    } else {
      assert Happened(log[n], second);
    }
  }

  lemma {:induction false} NothingToSum(log: seq<Entry>, t: Timeline, column: RowColumn)
    requires forall i :: 0 <= i < |log| && log[i].Timed() ==> log[i].second in t
    ensures SumBy(Lost(column, t), log) == 0
  {
    if log != [] { NothingToSum(log[1..], t, column); }
  }

  /** Everything falls into the longest allowed duration and drain. */
  ghost predicate InTime(log: seq<Entry>)
  {
    forall e :: e in log && e.Timed() ==> 0 <= e.second < MAX_TIMELINE_POINTS
  }

  lemma RowForEach(log: seq<Entry>, config: RunConfig, e: Entry)
    requires InTime(log) && e in log && e.Timed()
    ensures e.second in Replay(log, config).timeline
  {
    var t := Replay(log, config).timeline;
    forall second | second in t ensures 0 <= second < MAX_TIMELINE_POINTS { RowsFromLog(log, config, second); }
    hide Replay;
    TimelineCounts(log, config, e.second);
    if e.second !in t {
      var i :| 0 <= i < |log| && log[i] == e;
      assert Happened(log[i], e.second);
      SmallerSet(t.Keys, Seconds(MAX_TIMELINE_POINTS) - {e.second});
    }
  }

  /** A run that stays within the longest allowed duration and drain loses nothing. */
  lemma NothingLost(log: seq<Entry>, config: RunConfig, column: RowColumn)
    requires InTime(log)
    ensures SumBy(Lost(column, Replay(log, config).timeline), log) == 0
  {
    hide Replay;
    forall i | 0 <= i < |log| && log[i].Timed() ensures log[i].second in Replay(log, config).timeline {
      RowForEach(log, config, log[i]);
    }
    NothingToSum(log, Replay(log, config).timeline, column);
  }
}
