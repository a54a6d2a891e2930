/** Warm-up and the guardrail (internal/agent/runner.go, `RunTarget`): one measurements object takes the warm-up
    requests, is reset, and then takes the load. A guardrail that fires cancels the run's context, and resetting does
    not undo that. */
module WarmUp {
  import opened Core
  import opened Folds
  import opened OrderStatistics
  import opened SampleSets
  import opened Ledgers
  import opened LedgerProperties
  import opened AgentResult
  import Lifecycle = RequestLifecycle

  /** What the measurements object holds: the ledger, and whether it cancelled the run. */
  datatype Meter = Meter(ledger: Ledger, runCancelled: bool)
  const FRESH := Meter(BLANK, false)

  /** One call of a record method. */
  function Record(m: Meter, e: Entry, config: RunConfig): Meter
  {
    var l := Apply(m.ledger, e, config);
    Meter(l, m.runCancelled || (l.stopped && !m.ledger.stopped))
  }

  function RecordAll(m: Meter, log: seq<Entry>, config: RunConfig): Meter
  {
    if log == [] then m else Record(RecordAll(m, log[..|log| - 1], config), log[|log| - 1], config)
  }

  function Cleared(m: Meter): Meter { Meter(BLANK, m.runCancelled) }

  /** The object after the warm-up, the reset and the load. */
  function Measure(warmUp: seq<Entry>, load: seq<Entry>, config: RunConfig): Meter
  {
    RecordAll(Cleared(RecordAll(FRESH, warmUp, config)), load, config)
  }

  /** No stage starts once the run was cancelled, so that at most the gauges are still read. */
  ghost predicate LoadAfter(warmUp: seq<Entry>, load: seq<Entry>, config: RunConfig)
  {
    RecordAll(FRESH, warmUp, config).runCancelled ==> forall e :: e in load ==> e.GaugesSampled?
  }

  lemma RecordLast(m: Meter, log: seq<Entry>, config: RunConfig)
    requires log != []
    ensures var n := |log| - 1; RecordAll(m, log, config) == Record(RecordAll(m, log[..n], config), log[n], config)
  {
    hide Record;
  }

  lemma NothingRecorded(m: Meter, log: seq<Entry>, config: RunConfig)
    requires log == []
    ensures RecordAll(m, log, config) == m && Replay(log, config) == BLANK
  {
  }

  lemma {:induction false} RecordedFrom(m: Meter, log: seq<Entry>, config: RunConfig)
    requires m.ledger == BLANK
    ensures RecordAll(m, log, config)
         == Meter(Replay(log, config), m.runCancelled || Replay(log, config).stopped)
  {
    hide RecordAll, Replay, Apply;
    if log == [] {
      NothingRecorded(m, log, config);
    } else {
      var n := |log| - 1;
      RecordedFrom(m, log[..n], config);
      RecordLast(m, log, config);
      ReplayLast(log, config);
      StopOnce(Replay(log[..n], config), log[n], config);
    }
  }

  lemma ReportedCounts(l: Ledger, config: RunConfig, now: Readings)
    ensures ResultOf(l, config, now).counts == CountsOf(l.totals)
  {
    hide DistributionOf, Sorted, ScenarioResults, Over, Rate, SamplesSent, P95, CountsOf;
  }

  lemma NoCounts(t: Totals)
    requires t == NO_TOTALS
    ensures CountsOf(t) == ZERO_COUNTS
  {
    assert t.tokens == Usage(0, 0, 0);
    assert t.successes == t.httpFailures == t.transportErrors == 0;
  }

  lemma BreaksWithSuccess(log: seq<Entry>, config: RunConfig, n: nat)
    requires BreaksAt(log, config, n)
    ensures n < |log| && log[n].Succeeded? && log[n] in log
  {
    hide Breaks;
  }

  lemma OnlyGauges(log: seq<Entry>, config: RunConfig, now: Readings)
    requires forall e :: e in log ==> e.GaugesSampled?
    ensures !Replay(log, config).stopped && ResultOf(Replay(log, config), config, now).counts == ZERO_COUNTS
  {
    hide Replay, BreaksAt, ResultOf, FirstBreak, Violation, CountsOf;
    GuardrailStops(log, config);
    GaugesCountNothing(log, config);
    ReportedCounts(Replay(log, config), config, now);
    NoCounts(Replay(log, config).totals);
    if Replay(log, config).stopped {
      var n :| 0 <= n < |log| && BreaksAt(log, config, n);
      BreaksWithSuccess(log, config, n);
    }
  }

  lemma GaugesCountNothing(log: seq<Entry>, config: RunConfig)
    requires forall e :: e in log ==> e.GaugesSampled?
    ensures Replay(log, config).totals == NO_TOTALS
  {
    if log != [] {
      hide Apply;
      var n := |log| - 1;
      GaugesCountNothing(log[..n], config);
      ReplayLast(log, config);
      assert log[n] in log;
      LastTotals(Replay(log[..n], config), log[n], config);
    }
  }

  /** The report says that a guardrail stopped the run if and only if it fired after the warm-up. If it fired during the
      warm-up, the run was cancelled as well, but its report is that of a run in which nothing happened. */
  lemma StopIsReported(warmUp: seq<Entry>, load: seq<Entry>, config: RunConfig, now: Readings)
    requires LoadAfter(warmUp, load, config)
    ensures var m, r := Measure(warmUp, load, config), ResultOf(Measure(warmUp, load, config).ledger, config, now);
            && (m.runCancelled <==> Replay(warmUp, config).stopped || Replay(load, config).stopped)
            && ((r.stoppedByGuardrail <==> m.runCancelled) <==> !Replay(warmUp, config).stopped)
            && (Replay(warmUp, config).stopped ==> !r.stoppedByGuardrail && r.counts == ZERO_COUNTS)
  {
    hide RecordAll, Replay, DistributionOf, Sorted, ScenarioResults, Over, Rate, SamplesSent, CountsOf;
    RecordedFrom(FRESH, warmUp, config);
    RecordedFrom(Cleared(RecordAll(FRESH, warmUp, config)), load, config);
    if Replay(warmUp, config).stopped { OnlyGauges(load, config, now); }
  }

  // ----- a warm-up that does it

  /** A model's answer within a millisecond of its latency. */
  const ANSWER := Timing(1, 1, 1, [], 1, true)
  const REQUEST := Attempt("", true)

  function Exchanged(): Lifecycle.Exchange
  {
    Lifecycle.Response(true, 200, "OK", 1, Lifecycle.Read(ANSWER, Usage(1, 1, 0)))
  }

  function Slow(latency: nat): Entry { Lifecycle.Outcome(REQUEST, Exchanged(), 1, latency) }

  /** `n` requests one after the other, each of which succeeds after `latency`. */
  function SlowRequests(n: nat, latency: nat): seq<Entry>
  {
    if n == 0 then [] else SlowRequests(n - 1, latency) + [Began(REQUEST, 0, 0), Slow(latency)]
  }

  lemma {:induction false} SlowJoined(n: nat, latency: nat)
    ensures Lifecycle.Joined(SlowRequests(n, latency))
  {
    if n == 0 {
      Lifecycle.NothingJoins();
    } else {
      hide Lifecycle.Joined;
      SlowJoined(n - 1, latency);
      Lifecycle.OneRequestJoins(SlowRequests(n - 1, latency), REQUEST, 0, 0, Exchanged(), 1, latency);
    }
  }

  function Same(n: nat, latency: nat): (values: seq<nat>)
    ensures |values| == n && forall i :: 0 <= i < n ==> values[i] == latency
  {
    if n == 0 then [] else Same(n - 1, latency) + [latency]
  }

  lemma SlowRequestsLast(n: nat, latency: nat)
    requires n > 0
    ensures SlowRequests(n, latency) == (SlowRequests(n - 1, latency) + [Began(REQUEST, 0, 0)]) + [Slow(latency)]
  {
  }

  lemma {:induction false} SlowMeasured(n: nat, latency: nat)
    ensures Measured(Latencies, SlowRequests(n, latency)) == Same(n, latency)
  {
    if n == 0 {
      assert Map(Latencies.From(), []) == [];
    } else {
      hide Measured, SlowRequests;
      var before, b := SlowRequests(n - 1, latency), Began(REQUEST, 0, 0);
      SlowMeasured(n - 1, latency);
      SlowRequestsLast(n, latency);
      MeasuredSnoc(Latencies, before + [b], Slow(latency));
      MeasuredSnoc(Latencies, before, b);
    }
  }

  lemma {:induction false} SlowSteady(n: nat, latency: nat, config: RunConfig)
    ensures SumBy(LedgerCounter.SteadySamples.Weight(config), SlowRequests(n, latency)) == n
  {
    if n > 0 {
      hide SumBy, SlowRequests;
      var before, b := SlowRequests(n - 1, latency), Began(REQUEST, 0, 0);
      SlowSteady(n - 1, latency, config);
      SlowRequestsLast(n, latency);
      SumBySnoc(LedgerCounter.SteadySamples.Weight(config), before + [b], Slow(latency));
      SumBySnoc(LedgerCounter.SteadySamples.Weight(config), before, b);
    }
  }

  lemma SlowP95(n: nat, latency: nat)
    requires n > 0
    ensures P95(Same(n, latency)) == latency
  {
    DistributionPercentiles(Same(n, latency), latency);
    hide DistributionOf;
  }

  /** Ten warm-up requests above the run's latency limit cancel the run: its stages never start, and the report shows
      neither a request nor a guardrail. */
  lemma WarmUpSilencesRun(config: RunConfig, now: Readings) returns (warmUp: seq<Entry>)
    requires config.maxP95Millis > 0
    ensures Lifecycle.Joined(warmUp) && |warmUp| == 20 && LoadAfter(warmUp, [], config)
    ensures var m, r := Measure(warmUp, [], config), ResultOf(Measure(warmUp, [], config).ledger, config, now);
            m.runCancelled && !r.stoppedByGuardrail && r.counts == ZERO_COUNTS
  {
    hide Replay, DistributionOf, ResultOf, Measure, Measured;
    var latency := config.maxP95Millis + 1;
    warmUp := SlowRequests(10, latency);
    SlowJoined(10, latency);
    SlowLength(10, latency);
    TenSlowStop(latency, config);
    StopIsReported(warmUp, [], config, now);
  }

  lemma {:induction false} SlowLength(n: nat, latency: nat)
    ensures |SlowRequests(n, latency)| == 2 * n
  {
    if n > 0 { SlowLength(n - 1, latency); }
  }

  lemma TenSlowStop(latency: nat, config: RunConfig)
    requires 0 < config.maxP95Millis < latency
    ensures Replay(SlowRequests(10, latency), config).stopped
  {
    hide Replay, Measured, Thinned, SlowRequests, Same, P95, Violation;
    var log := SlowRequests(10, latency);
    SlowMeasured(10, latency);
    SlowSteady(10, latency, config);
    SlowLast(10, latency);
    SamplesAreThinned(log, config, Latencies);
    UndecimatedKeepsAll(Measured(Latencies, log), MAX_SAMPLES_PER_METRIC);
    CountersCount(log, config, LedgerCounter.SteadySamples);
    SlowP95(10, latency);
    Violated(Replay(log, config), config);
    GuardrailStops(log, config);
    assert log[..|log| - 1 + 1] == log;
    assert BreaksAt(log, config, |log| - 1);
  }

  lemma SlowLast(n: nat, latency: nat)
    requires n > 0
    ensures var log := SlowRequests(n, latency); log != [] && log[|log| - 1].Succeeded?
  {
  }

  lemma Violated(l: Ledger, config: RunConfig)
    requires 0 < config.maxP95Millis < P95(l.samples.latencies.values)
    ensures Violation(l.totals, l.samples, config) != ""
  {
    hide P95;
  }
}
