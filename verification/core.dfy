/** Records exchanged by the controller and the agents (internal/core/types.go). Latencies and counters
    are non-negative, floating-point fields are reals, and an ID such as `run-7` is its number. */
module Core {
  datatype Option<+T> = None | Some(value: T)

  const MAX_VUS: nat := 500
  const MAX_DURATION_SECONDS: nat := 3600
  const MAX_MODEL_TOKENS: nat := 1000000

  function Max(a: int, b: int): int { if a > b then a else b }
  function Min(a: int, b: int): int { if a < b then a else b }

  /** Go's integer division and remainder truncate toward zero. */
  function TruncDiv(a: int, b: int): int
    requires b > 0
  {
    if a >= 0 then a / b else -(-a / b)
  }

  function TruncMod(a: int, b: int): int
    requires b > 0
  {
    a - b * TruncDiv(a, b)
  }

  /** A quotient in floating point: a number, or what dividing by 0 gives. */
  datatype Float = Number(value: real) | Infinite | NotANumber

  datatype LoadMode = VU | RPS | OtherMode
  datatype CachePolicy = Unset | Mixed | Reuse | Bypass

  datatype ScenarioTask = ScenarioTask(name: string, prompt: string, weight: int, thinkMillis: int, maxTokens: int)
  datatype UserJourney = UserJourney(name: string, weight: int, agentWorkflow: bool, scenario: seq<ScenarioTask>)
  datatype TraceEvent = TraceEvent(timestampMillis: int, promptTokens: int, maxTokens: int, promptLength: nat)

  datatype RunConfig = RunConfig(
    targetId: nat, mode: LoadMode, vus: int, rps: int, durationSeconds: int,
    maxErrorPercent: real, maxP95Millis: int, maxTtftP95Millis: int, maxTpotP95Millis: int,
    minOutputTokensPerSecond: real, minGoodputPercent: real, minCompletionPercent: real,
    cachePolicy: CachePolicy, variationPercent: int, workloadId: string, shards: int,
    prompt: string, maxTokens: int, scenario: seq<ScenarioTask>, ignoreEos: bool, accumulateContext: bool)
  {
    /** The load a run is configured with, as AdvanceSearch and RunTarget read it. */
    function Load(): int { if mode == RPS then rps else vus }

    /** How many shards the run is split into. */
    function ShardCount(): (n: nat)
      ensures n >= 1
    {
      if shards < 1 then 1 else shards
    }
  }

  datatype Distribution = Distribution(min: nat, avg: nat, p50: nat, p95: nat, p99: nat, max: nat)
  const NO_DISTRIBUTION := Distribution(0, 0, 0, 0, 0, 0)

  datatype RunSamples = RunSamples(
    latency: seq<nat>, ttft: seq<nat>, ttfo: seq<nat>, itl: seq<nat>, tpot: seq<nat>, decimated: bool)
  const NO_SAMPLES := RunSamples([], [], [], [], [], false)

  datatype TimelinePoint = TimelinePoint(
    second: int, requests: nat, successes: nat, failures: nat, issued: nat, completed: nat, cancelled: nat,
    active: nat, waiting: nat, targetLoad: nat, p95: nat)

  datatype ScenarioResult = ScenarioResult(
    name: string, issued: nat, completed: nat, failures: nat, cancelled: nat, completionPercent: real,
    latency: Distribution, ttft: Distribution, outputTokens: nat, outputPerSecond: real, inputTokens: nat,
    samples: Option<RunSamples>)

  /** The counters of a RunResult that a merge adds up. */
  datatype Counts = Counts(
    successes: nat, failures: nat, total: nat, dropped: nat, sessions: nat, completedSessions: nat,
    issued: nat, completed: nat, cancelled: nat, httpFailures: nat, transportErrors: nat, steadySamples: nat,
    missingUsage: nat, contentChunks: nat, promptTokens: nat, completionTokens: nat, reasoningTokens: nat)
  const ZERO_COUNTS := Counts(0, 0, 0, 0, 0, 0, 0, 0, 0, 0, 0, 0, 0, 0, 0, 0, 0)

  datatype RunResult = RunResult(
    counts: Counts, p95Millis: nat, ttftP95Millis: nat, throughputRps: Float,
    latency: Distribution, ttft: Distribution, ttfo: Distribution, itl: Distribution, tpot: Distribution,
    outputPerSecond: real, goodputPercent: real, stoppedByGuardrail: bool, guardrailMessage: string,
    statusCounts: map<int, nat>, errors: seq<string>, timeline: seq<TimelinePoint>, latencyScope: string,
    completionPercent: real, steadySeconds: nat, drainedSeconds: nat, scenarios: seq<ScenarioResult>,
    samples: Option<RunSamples>, outputLengthPinned: bool, contextAccumulated: bool, samplesDecimated: bool,
    latencyFromIntendedArrival: bool, generatorDelay: Distribution, backoffEvents: nat, backoffSeconds: real)
  const NO_RESULT := RunResult(
    ZERO_COUNTS, 0, 0, Number(0.0), NO_DISTRIBUTION, NO_DISTRIBUTION, NO_DISTRIBUTION, NO_DISTRIBUTION, NO_DISTRIBUTION,
    0.0, 0.0, false, "", map[], [], [], "", 0.0, 0, 0, [], None, false, false, false, false, NO_DISTRIBUTION, 0, 0.0)

  /** README.md's rule for request accounting, with the derived totals an agent reports. */
  predicate Balanced(c: Counts)
  {
    && c.issued == c.successes + c.httpFailures + c.transportErrors + c.cancelled
    && c.completed == c.successes + c.httpFailures
    && c.failures == c.httpFailures + c.transportErrors
    && c.total == c.successes + c.failures
  }

  datatype RunStatus = Queued | Running | Completed | Cancelled
  datatype Run = Run(
    id: nat, status: RunStatus, searchId: Option<nat>, config: RunConfig, result: RunResult, startedUnix: int)
  {
    predicate Active() { status == Queued || status == Running }
  }

  datatype Target = Target(id: nat, name: string, url: string)
  datatype Shard = Shard(id: nat, runId: nat, status: RunStatus, index: nat)
  datatype Assignment = Assignment(run: Run, target: Target, shard: Shard)
}
