/** The agent's measurements object (internal/agent/runner.go, `measurements`). Every method runs under its lock; each
    is proved to do to the ledger what its entry says. Its counters and its sample sets are grouped into two fields. */
module Measurement {
  import opened Core
  import opened OrderStatistics
  import opened SampleSets
  import opened Ledgers

  class Measurements {
    const config: RunConfig
    var totals: Totals
    var samples: Samples
    var statusCounts: map<int, nat>
    var errors: seq<string>
    var timeline: Timeline
    var scenarios: map<string, ScenarioRow>
    var scenarioOrder: seq<string>
    var stopped: bool
    var guardrail: string
    /** Whether the run's context was cancelled through `stop`. */
    var runCancelled: bool

    ghost function Value(): Ledger
      reads this
    {
      Ledger(totals, samples, statusCounts, errors, timeline, ScenarioTable(scenarios, scenarioOrder), stopped,
          guardrail)
    }

    constructor (config: RunConfig)
      ensures Value() == BLANK && this.config == config && !runCancelled
    {
      this.config := config;
      runCancelled := false;
      totals, samples, statusCounts, errors, timeline := NO_TOTALS, NOTHING_SAMPLED, map[], [], map[];
      scenarios, scenarioOrder, stopped, guardrail := map[], [], false, "";
    }

    /** Forgets the warm-up requests, but a run cancelled meanwhile stays cancelled. */
    method Reset()
      modifies this
      ensures Value() == BLANK && runCancelled == old(runCancelled)
    {
      totals, samples, statusCounts, errors, timeline := NO_TOTALS, NOTHING_SAMPLED, map[], [], map[];
      scenarios, scenarioOrder, stopped, guardrail := map[], [], false, "";
    }

    /** `timelineAtLocked`: the row of a second, created when there is room; the caller updates it. */
    method TimelineAt(second: int) returns (found: bool)
      modifies this`timeline
      ensures timeline == OpenRow(old(timeline), second) && found == (second in timeline)
    {
      if second !in timeline {
        if |timeline| >= MAX_TIMELINE_POINTS { return false; }
        timeline := timeline[second := NO_ROW];
      }
      return true;
    }

    /** `recordTimelineLocked`, for an outcome. */
    method RecordTimeline(e: Entry)
      requires e.Outcome()
      modifies this`timeline
      ensures timeline == AddToTimeline(old(timeline), e)
    {
      var found := TimelineAt(e.second);
      if !found { return; }
      var point := timeline[e.second];
      if e.Succeeded? {
        point := point.(successes := point.successes + 1, completed := point.completed + 1);
      } else if e.CutShort? {
        timeline := timeline[e.second := point.(cancelled := point.cancelled + 1)];
        return;
      } else {
        point := point.(failures := point.failures + 1, completed := point.completed + 1);
      }
      if |point.latencies| < MAX_SECOND_SAMPLES {
        point := point.(latencies := point.latencies + [e.latency]);
      }
      timeline := timeline[e.second := point];
    }

    method SampleGauges(second: int, active: nat, waiting: nat, target: nat)
      modifies this`timeline
      ensures Value() == Apply(old(Value()), GaugesSampled(second, active, waiting, target), config)
    {
      var found := TimelineAt(second);
      if found {
        var point := timeline[second];
        point := point.(active := Max(point.active, active), waiting := Max(point.waiting, waiting),
                        targetLoad := Max(point.targetLoad, target));
        timeline := timeline[second := point];
      }
    }

    /** `scenarioLocked`: the row of a scenario, created when it first turns up; the caller updates it. */
    method ScenarioAt(name: string)
      modifies this`scenarios, this`scenarioOrder
      ensures ScenarioTable(scenarios, scenarioOrder)
          == OpenScenario(old(ScenarioTable(scenarios, scenarioOrder)), name)
      ensures name in scenarios
    {
      if name !in scenarios {
        scenarios := scenarios[name := NO_SCENARIO_ROW];
        scenarioOrder := scenarioOrder + [name];
      }
    }

    method AppendErrorMessage(message: string)
      modifies this`errors
      ensures errors == AppendError(old(errors), message)
    {
      if |errors| >= MAX_ERRORS { return; }
      var text := message;
      if |text| > MAX_ERROR_LENGTH { text := text[..MAX_ERROR_LENGTH]; }
      errors := errors + [text];
    }

    method CountStatus(status: int)
      modifies this`statusCounts
      ensures statusCounts == AddStatus(old(statusCounts), status)
    {
      var count := if status in statusCounts then statusCounts[status] else 0;
      statusCounts := statusCounts[status := count + 1];
    }

    method BeginInScenario(scenario: string, ghost e: Entry)
      requires e.Began? && e.call.scenario == scenario
      modifies this`scenarios, this`scenarioOrder
      ensures ScenarioTable(scenarios, scenarioOrder) == AddToScenarios(old(ScenarioTable(scenarios, scenarioOrder)), e)
    {
      if scenario != "" {
        ScenarioAt(scenario);
        scenarios := scenarios[scenario := scenarios[scenario].(issued := scenarios[scenario].issued + 1)];
      }
    }

    /** A request goes out: `offset` is when it was due, and decides whether it counts as steady. */
    method BeginAttempt(scenario: string, offset: int, second: int, delay: nat, steadyAfter: int)
      returns (call: Attempt)
      modifies this`totals, this`timeline, this`scenarios, this`scenarioOrder, this`samples
      ensures call == Attempt(scenario, offset >= steadyAfter)
      ensures Value() == Apply(old(Value()), Began(call, second, delay), config)
    {
      hide Add, OpenRow, OpenScenario, MaybeStop, AddToScenarios;
      call := Attempt(scenario, offset >= steadyAfter);
      totals := totals.(issued := totals.issued + 1);
      var found := TimelineAt(second);
      if found {
        timeline := timeline[second := timeline[second].(issued := timeline[second].issued + 1)];
      }
      BeginInScenario(scenario, Began(call, second, delay));
      samples := samples.(generatorDelays := Keep(samples.generatorDelays, delay));
    }

    method RecordSuccess(call: Attempt, second: int, latency: nat, timing: Timing, status: int, usage: Usage)
      modifies this
      ensures Value() == Apply(old(Value()), Succeeded(call, second, latency, timing, status, usage), config)
      ensures runCancelled == (old(runCancelled) || (stopped && !old(stopped)))
    {
      hide AddToTimeline, AddStatus, MaybeStop, AddTotals, AddSamples, AddToScenarios;
      ghost var e := Succeeded(call, second, latency, timing, status, usage);
      CountSuccess(call, latency, timing, usage, e);
      KeepTimings(call, latency, timing, e);
      CountStatus(status);
      CountScenario(call, latency, timing, usage, e);
      RecordTimeline(Succeeded(call, second, latency, timing, status, usage));
      assert Value() == Note(old(Value()), e, config);
      StopIfViolated();
    }

    method CountSuccess(call: Attempt, latency: nat, timing: Timing, usage: Usage, ghost e: Entry)
      requires e.Succeeded? && (e.call, e.latency, e.timing, e.usage) == (call, latency, timing, usage)
      modifies this`totals
      ensures totals == AddTotals(old(totals), e, config)
    {
      hide MeetsSlo;
      totals := totals.(successes := totals.successes + 1);
      if call.steady {
        totals := totals.(steadySamples := totals.steadySamples + 1);
      }
      totals := totals.(tokens := AddUsage(totals.tokens, usage),
                        contentChunks := totals.contentChunks + timing.chunks);
      if !timing.usageReported {
        totals := totals.(missingUsage := totals.missingUsage + 1);
      }
      if MeetsSlo(latency, timing, usage, config) {
        totals := totals.(goodput := totals.goodput + 1);
      }
    }

    method CountScenario(call: Attempt, latency: nat, timing: Timing, usage: Usage, ghost e: Entry)
      requires e.Succeeded? && (e.call, e.latency, e.timing, e.usage) == (call, latency, timing, usage)
      modifies this`scenarios, this`scenarioOrder
      ensures ScenarioTable(scenarios, scenarioOrder) == AddToScenarios(old(ScenarioTable(scenarios, scenarioOrder)), e)
    {
      hide Add, OpenScenario;
      if call.scenario != "" {
        ScenarioAt(call.scenario);
        var entry := scenarios[call.scenario];
        entry := entry.(completed := entry.completed + 1, outputTokens := entry.outputTokens + usage.completion,
                        inputTokens := entry.inputTokens + usage.prompt);
        if call.steady {
          entry := entry.(latencies := Keep(entry.latencies, latency), ttfts := Keep(entry.ttfts, timing.ttft));
        }
        scenarios := scenarios[call.scenario := entry];
      }
    }

    /** The steady-window samples of one success. */
    method KeepTimings(call: Attempt, latency: nat, timing: Timing, ghost e: Entry)
      requires e.Succeeded? && (e.call, e.latency, e.timing) == (call, latency, timing)
      modifies this`samples
      ensures samples == AddSamples(old(samples), e)
    {
      hide Add, AddAll;
      if call.steady {
        samples := samples.(latencies := Keep(samples.latencies, latency), ttfts := Keep(samples.ttfts, timing.ttft));
        samples := samples.(ttfos := Keep(samples.ttfos, timing.ttfo), itls := KeepAll(samples.itls, timing.itls));
        if timing.tpot > 0 {
          samples := samples.(tpots := Keep(samples.tpots, timing.tpot));
        }
      }
    }

    /** `maybeStopLocked`. */
    method StopIfViolated()
      modifies this`stopped, this`guardrail, this`runCancelled
      ensures Value() == MaybeStop(old(Value()), config)
      ensures runCancelled == (old(runCancelled) || (stopped && !old(stopped)))
    {
      hide P95;
      if stopped || totals.steadySamples < MIN_GUARDRAIL_SAMPLES { return; }
      var message := "";
      if config.maxP95Millis > 0 && P95(samples.latencies.values) > config.maxP95Millis {
        message := "E2E P95 SLO exceeded";
      }
      if message == "" && config.maxTtftP95Millis > 0 && P95(samples.ttfts.values) > config.maxTtftP95Millis {
        message := "TTFT P95 SLO exceeded";
      }
      if message == "" && config.maxTpotP95Millis > 0 && P95(samples.tpots.values) > config.maxTpotP95Millis {
        message := "TPOT P95 SLO exceeded";
      }
      var finished := totals.successes + totals.httpFailures + totals.transportErrors;
      if message == "" && config.minGoodputPercent > 0.0 && finished > 0
         && totals.goodput as real * 100.0 / finished as real < config.minGoodputPercent {
        message := "goodput SLO not met";
      }
      if message != "" {
        stopped := true;
        guardrail := message;
        runCancelled := true;
      }
    }

    method RecordDropped()
      modifies this`totals
      ensures Value() == Apply(old(Value()), ArrivalDropped, config)
    {
      totals := totals.(dropped := totals.dropped + 1);
    }

    method StartSession()
      modifies this`totals
      ensures Value() == Apply(old(Value()), SessionStarted, config)
    {
      totals := totals.(sessions := totals.sessions + 1);
    }

    method CompleteSession(completed: bool)
      modifies this`totals
      ensures Value() == Apply(old(Value()), SessionEnded(completed), config)
    {
      if completed {
        totals := totals.(completedSessions := totals.completedSessions + 1);
      }
    }

    /** `recordAborted` separates a request the run itself cut short from a genuine failure of the target. */
    method RecordAborted(call: Attempt, second: int, latency: nat, stopping: bool, message: string)
      modifies this`totals, this`errors, this`timeline, this`scenarios, this`scenarioOrder
      ensures Value() == Apply(old(Value()), Aborted(call, second, latency, stopping, message), config)
    {
      if stopping {
        RecordCancelled(call, second);
        return;
      }
      RecordTransportError(call, second, latency, message);
    }

    method RecordCancelled(call: Attempt, second: int)
      modifies this`totals, this`timeline, this`scenarios, this`scenarioOrder
      ensures Value() == Apply(old(Value()), CutShort(call, second), config)
    {
      hide AddToTimeline, OpenScenario;
      totals := totals.(cancelled := totals.cancelled + 1);
      if call.scenario != "" {
        ScenarioAt(call.scenario);
        var entry := scenarios[call.scenario];
        scenarios := scenarios[call.scenario := entry.(cancelled := entry.cancelled + 1)];
      }
      RecordTimeline(CutShort(call, second));
    }

    method RecordTransportError(call: Attempt, second: int, latency: nat, message: string)
      modifies this`totals, this`errors, this`timeline, this`scenarios, this`scenarioOrder
      ensures Value() == Apply(old(Value()), TransportFailed(call, second, latency, message), config)
    {
      hide AddToTimeline, AppendError, OpenScenario, MaybeStop;
      totals := totals.(transportErrors := totals.transportErrors + 1);
      AppendErrorMessage(message);
      if call.scenario != "" {
        ScenarioAt(call.scenario);
        var entry := scenarios[call.scenario];
        scenarios := scenarios[call.scenario := entry.(failures := entry.failures + 1)];
      }
      RecordTimeline(TransportFailed(call, second, latency, message));
    }

    method FailInScenario(call: Attempt, ghost e: Entry)
      requires e.HttpFailed? && e.call == call
      modifies this`scenarios, this`scenarioOrder
      ensures ScenarioTable(scenarios, scenarioOrder) == AddToScenarios(old(ScenarioTable(scenarios, scenarioOrder)), e)
    {
      if call.scenario != "" {
        ScenarioAt(call.scenario);
        var entry := scenarios[call.scenario];
        entry := entry.(failures := entry.failures + 1, completed := entry.completed + 1);
        scenarios := scenarios[call.scenario := entry];
      }
    }

    method RecordHTTPFailure(call: Attempt, second: int, latency: nat, status: int, message: string)
      modifies this`totals, this`statusCounts, this`errors, this`timeline, this`scenarios, this`scenarioOrder
      ensures Value() == Apply(old(Value()), HttpFailed(call, second, latency, status, message), config)
    {
      hide AddToTimeline, AppendError, AddStatus, OpenScenario, MaybeStop, AddToScenarios;
      totals := totals.(httpFailures := totals.httpFailures + 1);
      CountStatus(status);
      AppendErrorMessage(message);
      FailInScenario(call, HttpFailed(call, second, latency, status, message));
      RecordTimeline(HttpFailed(call, second, latency, status, message));
    }
  }
}
