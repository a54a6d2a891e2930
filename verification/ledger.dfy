/** What an agent records about its requests (internal/agent/runner.go, `measurements`), as a value: the ledger that a
    log of events leaves behind. Clock readings are part of the events. */
module Ledgers {
  import opened Core
  import opened OrderStatistics
  import opened SampleSets

  const MAX_TIMELINE_POINTS: nat := MAX_DURATION_SECONDS + 600
  const MAX_SECOND_SAMPLES: nat := 1000
  const MAX_ERRORS: nat := 20
  const MAX_ERROR_LENGTH: nat := 180
  const MIN_GUARDRAIL_SAMPLES: nat := 10

  /** What is decided when a request goes out: its scenario, "" for none, and whether it was due in the
      steady window. */
  datatype Attempt = Attempt(scenario: string, steady: bool)
  datatype Timing = Timing(ttft: nat, ttfo: nat, tpot: nat, itls: seq<nat>, chunks: nat, usageReported: bool)
  datatype Usage = Usage(prompt: nat, completion: nat, reasoning: nat)

  /** One call of a record method. `second` is the second of the run it falls into. */
  datatype Entry =
    | Began(call: Attempt, second: int, delay: nat)
    | Succeeded(call: Attempt, second: int, latency: nat, timing: Timing, status: int, usage: Usage)
    | HttpFailed(call: Attempt, second: int, latency: nat, status: int, message: string)
    | TransportFailed(call: Attempt, second: int, latency: nat, message: string)
    | CutShort(call: Attempt, second: int)
    | ArrivalDropped
    | SessionStarted
    | SessionEnded(completed: bool)
    | GaugesSampled(second: int, active: nat, waiting: nat, targetLoad: nat)
  {
    predicate Timed() { !ArrivalDropped? && !SessionStarted? && !SessionEnded? }
    predicate OfRequest() { Timed() && !GaugesSampled? }
    predicate Outcome() { OfRequest() && !Began? }
    predicate Measured() { Succeeded? && call.steady }
  }

  /** The request meets every latency and speed limit of the run. */
  predicate MeetsSlo(latency: nat, timing: Timing, usage: Usage, config: RunConfig)
  {
    && !(config.maxP95Millis > 0 && latency > config.maxP95Millis)
    && !(config.maxTtftP95Millis > 0 && timing.ttft > config.maxTtftP95Millis)
    && !(config.maxTpotP95Millis > 0 && timing.tpot > config.maxTpotP95Millis)
    && !(config.minOutputTokensPerSecond > 0.0 && latency > 0
         && (usage.completion * 1000) as real / latency as real < config.minOutputTokensPerSecond)
  }

  /** How a request without a response counts: cancelled when the run itself was stopping, failed otherwise. */
  function Aborted(call: Attempt, second: int, latency: nat, stopping: bool, message: string): Entry
  {
    if stopping then CutShort(call, second) else TransportFailed(call, second, latency, message)
  }

  // ----- totals

  datatype Totals = Totals(
    issued: nat, cancelled: nat, httpFailures: nat, transportErrors: nat, successes: nat, goodput: nat, dropped: nat,
    sessions: nat, completedSessions: nat, steadySamples: nat, missingUsage: nat, contentChunks: nat, tokens: Usage)
  const NO_TOTALS := Totals(0, 0, 0, 0, 0, 0, 0, 0, 0, 0, 0, 0, Usage(0, 0, 0))

  function One(b: bool): nat { if b then 1 else 0 }

  function AddUsage(a: Usage, b: Usage): Usage
  {
    Usage(a.prompt + b.prompt, a.completion + b.completion, a.reasoning + b.reasoning)
  }

  function AddTotals(t: Totals, e: Entry, config: RunConfig): Totals
  {
    match e
    case Began(_, _, _) => t.(issued := t.issued + 1)
    case Succeeded(call, _, latency, timing, _, usage) =>
      t.(successes := t.successes + 1, steadySamples := t.steadySamples + One(call.steady),
         tokens := AddUsage(t.tokens, usage), contentChunks := t.contentChunks + timing.chunks,
         missingUsage := t.missingUsage + One(!timing.usageReported),
         goodput := t.goodput + One(MeetsSlo(latency, timing, usage, config)))
    case HttpFailed(_, _, _, _, _) => t.(httpFailures := t.httpFailures + 1)
    case TransportFailed(_, _, _, _) => t.(transportErrors := t.transportErrors + 1)
    case CutShort(_, _) => t.(cancelled := t.cancelled + 1)
    case ArrivalDropped => t.(dropped := t.dropped + 1)
    case SessionStarted => t.(sessions := t.sessions + 1)
    case SessionEnded(completed) => t.(completedSessions := t.completedSessions + One(completed))
    case GaugesSampled(_, _, _, _) => t
  }

  function AddStatus(counts: map<int, nat>, code: int): map<int, nat>
  {
    counts[code := (if code in counts then counts[code] else 0) + 1]
  }

  function AddStatusOf(counts: map<int, nat>, e: Entry): map<int, nat>
  {
    if e.Succeeded? || e.HttpFailed? then AddStatus(counts, e.status) else counts
  }

  function AppendError(errors: seq<string>, message: string): seq<string>
  {
    if |errors| >= MAX_ERRORS then errors
    else errors + [if |message| > MAX_ERROR_LENGTH then message[..MAX_ERROR_LENGTH] else message]
  }

  function AddError(errors: seq<string>, e: Entry): seq<string>
  {
    if e.HttpFailed? || e.TransportFailed? then AppendError(errors, e.message) else errors
  }

  // ----- samples

  function Keep(s: SampleSet, value: nat): SampleSet { Add(s, value, MAX_SAMPLES_PER_METRIC) }
  function KeepAll(s: SampleSet, values: seq<nat>): SampleSet { AddAll(s, values, MAX_SAMPLES_PER_METRIC) }

  /** Samples of the steady window only, and how late each request went out. */
  datatype Samples = Samples(
    latencies: SampleSet, ttfts: SampleSet, ttfos: SampleSet, itls: SampleSet, tpots: SampleSet,
    generatorDelays: SampleSet)
  const NOTHING_SAMPLED := Samples(EMPTY, EMPTY, EMPTY, EMPTY, EMPTY, EMPTY)

  function AddSamples(s: Samples, e: Entry): Samples
  {
    if e.Began? then s.(generatorDelays := Keep(s.generatorDelays, e.delay))
    else if e.Measured() then
      s.(latencies := Keep(s.latencies, e.latency), ttfts := Keep(s.ttfts, e.timing.ttft),
         ttfos := Keep(s.ttfos, e.timing.ttfo), itls := KeepAll(s.itls, e.timing.itls),
         tpots := if e.timing.tpot > 0 then Keep(s.tpots, e.timing.tpot) else s.tpots)
    else s
  }

  // ----- the timeline

  datatype Row = Row(
    issued: nat, completed: nat, successes: nat, failures: nat, cancelled: nat, active: nat, waiting: nat,
    targetLoad: nat, latencies: seq<nat>)
  const NO_ROW := Row(0, 0, 0, 0, 0, 0, 0, 0, [])

  type Timeline = map<int, Row>

  /** A second gets a row when something happens in it, as long as there is room. */
  function OpenRow(t: Timeline, second: int): Timeline
  {
    if second in t || |t| >= MAX_TIMELINE_POINTS then t else t[second := NO_ROW]
  }

  function KeepLatency(latencies: seq<nat>, latency: nat): seq<nat>
  {
    if |latencies| < MAX_SECOND_SAMPLES then latencies + [latency] else latencies
  }

  function AddToRow(r: Row, e: Entry): Row
    requires e.Timed()
  {
    match e
    case Began(_, _, _) => r.(issued := r.issued + 1)
    case Succeeded(_, _, latency, _, _, _) =>
      r.(successes := r.successes + 1, completed := r.completed + 1, latencies := KeepLatency(r.latencies, latency))
    case HttpFailed(_, _, latency, _, _) =>
      r.(failures := r.failures + 1, completed := r.completed + 1, latencies := KeepLatency(r.latencies, latency))
    case TransportFailed(_, _, latency, _) =>
      r.(failures := r.failures + 1, completed := r.completed + 1, latencies := KeepLatency(r.latencies, latency))
    case CutShort(_, _) => r.(cancelled := r.cancelled + 1)
    case GaugesSampled(_, active, waiting, targetLoad) =>
      r.(active := Max(r.active, active), waiting := Max(r.waiting, waiting),
         targetLoad := Max(r.targetLoad, targetLoad))
  }

  function AddToTimeline(t: Timeline, e: Entry): Timeline
  {
    if !e.Timed() then t
    else
      var grown := OpenRow(t, e.second);
      if e.second in grown then grown[e.second := AddToRow(grown[e.second], e)] else grown
  }

  // ----- scenarios

  datatype ScenarioRow = ScenarioRow(
    issued: nat, completed: nat, failures: nat, cancelled: nat, latencies: SampleSet, ttfts: SampleSet,
    outputTokens: nat, inputTokens: nat)
  const NO_SCENARIO_ROW := ScenarioRow(0, 0, 0, 0, EMPTY, EMPTY, 0, 0)

  /** Rows by scenario name, and the names in the order they first turned up. */
  datatype ScenarioTable = ScenarioTable(rows: map<string, ScenarioRow>, order: seq<string>)
  const NO_SCENARIO_TABLE := ScenarioTable(map[], [])

  function OpenScenario(t: ScenarioTable, name: string): ScenarioTable
  {
    if name in t.rows then t else ScenarioTable(t.rows[name := NO_SCENARIO_ROW], t.order + [name])
  }

  function AddToScenarioRow(r: ScenarioRow, e: Entry): ScenarioRow
    requires e.OfRequest()
  {
    match e
    case Began(_, _, _) => r.(issued := r.issued + 1)
    case Succeeded(call, _, latency, timing, _, usage) =>
      r.(completed := r.completed + 1, outputTokens := r.outputTokens + usage.completion,
         inputTokens := r.inputTokens + usage.prompt,
         latencies := if call.steady then Keep(r.latencies, latency) else r.latencies,
         ttfts := if call.steady then Keep(r.ttfts, timing.ttft) else r.ttfts)
    case HttpFailed(_, _, _, _, _) => r.(failures := r.failures + 1, completed := r.completed + 1)
    case TransportFailed(_, _, _, _) => r.(failures := r.failures + 1)
    case CutShort(_, _) => r.(cancelled := r.cancelled + 1)
  }

  function AddToScenarios(t: ScenarioTable, e: Entry): ScenarioTable
  {
    if !e.OfRequest() || e.call.scenario == "" then t
    else
      var name, grown := e.call.scenario, OpenScenario(t, e.call.scenario);
      grown.(rows := grown.rows[name := AddToScenarioRow(grown.rows[name], e)])
  }

  // ----- the whole ledger

  datatype Ledger = Ledger(
    totals: Totals, samples: Samples, statusCounts: map<int, nat>, errors: seq<string>, timeline: Timeline,
    scenarios: ScenarioTable, stopped: bool, guardrail: string)
  const BLANK := Ledger(NO_TOTALS, NOTHING_SAMPLED, map[], [], map[], NO_SCENARIO_TABLE, false, "")

  function Finished(t: Totals): nat { t.successes + t.httpFailures + t.transportErrors }

  /** The first limit that is broken, "" for none. */
  function Violation(t: Totals, s: Samples, config: RunConfig): string
  {
    if config.maxP95Millis > 0 && P95(s.latencies.values) > config.maxP95Millis then "E2E P95 SLO exceeded"
    else if config.maxTtftP95Millis > 0 && P95(s.ttfts.values) > config.maxTtftP95Millis then "TTFT P95 SLO exceeded"
    else if config.maxTpotP95Millis > 0 && P95(s.tpots.values) > config.maxTpotP95Millis then "TPOT P95 SLO exceeded"
    else if config.minGoodputPercent > 0.0 && Finished(t) > 0
            && t.goodput as real * 100.0 / Finished(t) as real < config.minGoodputPercent then "goodput SLO not met"
    else ""
  }

  /** The guardrail that ends a run early, once there are enough samples to judge. */
  function MaybeStop(l: Ledger, config: RunConfig): Ledger
  {
    if l.stopped || l.totals.steadySamples < MIN_GUARDRAIL_SAMPLES then l
    else
      var message := Violation(l.totals, l.samples, config);
      if message == "" then l else l.(stopped := true, guardrail := message)
  }

  function Note(l: Ledger, e: Entry, config: RunConfig): Ledger
  {
    Ledger(
      AddTotals(l.totals, e, config), AddSamples(l.samples, e), AddStatusOf(l.statusCounts, e), AddError(l.errors, e),
      AddToTimeline(l.timeline, e), AddToScenarios(l.scenarios, e), l.stopped, l.guardrail)
  }

  function Apply(l: Ledger, e: Entry, config: RunConfig): Ledger
  {
    if e.Succeeded? then MaybeStop(Note(l, e, config), config) else Note(l, e, config)
  }

  /** The ledger after everything in the log, in its order. */
  function Replay(log: seq<Entry>, config: RunConfig): Ledger
  {
    if log == [] then BLANK else Apply(Replay(log[..|log| - 1], config), log[|log| - 1], config)
  }
}
