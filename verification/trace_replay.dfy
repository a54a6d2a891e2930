/** Trace replay: the web page imports a recorded trace (web/src/trace-replay.js), the controller
    validates it (internal/core/target.go, `ValidateRunConfig`) and the agent replays it on schedule
    (internal/agent/runner.go, `runTrace`). */
module TraceReplay {
  import opened Core

  const MAX_TRACE_EVENTS: nat := 10000
  const MAX_TRACE_SCALE := 100.0
  const MAX_EVENT_PROMPT: nat := 200000
  const NANOS_PER_MILLI := 1000000.0

  /** The part of a run configuration that trace replay depends on. */
  datatype Replay = Replay(
    mode: LoadMode, stages: nat, shards: int, durationSeconds: int, timeScale: real, events: seq<TraceEvent>)

  // ----- validation

  datatype Verdict = Accepted | WrongMode | TooManyOrBadScale | BadEvent | TooLong

  /** No scale stands for the original speed. */
  function Scale(timeScale: real): real { if timeScale == 0.0 then 1.0 else timeScale }

  predicate EventOk(e: TraceEvent, previous: int)
  {
    && e.timestampMillis >= previous && 0 <= e.promptTokens <= MAX_MODEL_TOKENS && 0 <= e.maxTokens <= MAX_MODEL_TOKENS
    && e.promptLength <= MAX_EVENT_PROMPT
  }

  /** Times never go back and do not start before -1, and every event is within its bounds. */
  ghost predicate EventsOk(events: seq<TraceEvent>)
  {
    && (forall i :: 0 <= i < |events| ==> EventOk(events[i], -1))
    && (forall i, j :: 0 <= i < j < |events| ==> events[i].timestampMillis <= events[j].timestampMillis)
  }

  function Span(events: seq<TraceEvent>): int
    requires events != []
  {
    events[|events| - 1].timestampMillis - events[0].timestampMillis
  }

  ghost predicate Replayable(r: Replay)
    requires r.events != []
  {
    && r.mode == RPS && r.stages == 0 && r.shards <= 1
    && |r.events| <= MAX_TRACE_EVENTS && 0.0 <= r.timeScale <= MAX_TRACE_SCALE
    && EventsOk(r.events)
    && Span(r.events) as real / Scale(r.timeScale) < (r.durationSeconds * 1000) as real
  }

  /** The trace checks of ValidateRunConfig, which only apply when there is a trace. */
  method ValidateTrace(r: Replay) returns (verdict: Verdict)
    requires r.events != []
    ensures verdict.Accepted? <==> Replayable(r)
    ensures verdict.WrongMode? <==> r.mode != RPS || r.stages > 0 || r.shards > 1
    ensures verdict.TooManyOrBadScale? <==>
              !verdict.WrongMode? && (|r.events| > MAX_TRACE_EVENTS || !(0.0 <= r.timeScale <= MAX_TRACE_SCALE))
    ensures verdict.BadEvent? <==> !verdict.WrongMode? && !verdict.TooManyOrBadScale? && !EventsOk(r.events)
  {
    if r.mode != RPS || r.stages > 0 || r.shards > 1 { return WrongMode; }
    if |r.events| > MAX_TRACE_EVENTS || r.timeScale < 0.0 || r.timeScale > MAX_TRACE_SCALE { return TooManyOrBadScale; }
    var previous := -1;
    for i := 0 to |r.events|
      invariant previous == if i == 0 then -1 else r.events[i - 1].timestampMillis
      invariant forall j :: 0 <= j < i ==> EventOk(r.events[j], -1) && r.events[j].timestampMillis <= previous
      invariant forall j, k :: 0 <= j < k < i ==> r.events[j].timestampMillis <= r.events[k].timestampMillis
    {
      var event := r.events[i];
      if event.timestampMillis < previous || event.promptTokens < 0 || event.promptTokens > MAX_MODEL_TOKENS
         || event.maxTokens < 0 || event.maxTokens > MAX_MODEL_TOKENS || event.promptLength > MAX_EVENT_PROMPT {
        return BadEvent;
      }
      previous := event.timestampMillis;
    }
    var scale := r.timeScale;
    if scale == 0.0 { scale := 1.0; }
    var span := r.events[|r.events| - 1].timestampMillis - r.events[0].timestampMillis;
    if span as real / scale >= (r.durationSeconds * 1000) as real { return TooLong; }
    return Accepted;
  }

  // ----- the schedule

  /** When event `i` is due, in nanoseconds after the start. */
  function DueNanos(r: Replay, i: nat): int
    requires i < |r.events|
  {
    var scale := if r.timeScale <= 0.0 then 1.0 else r.timeScale;
    ((r.events[i].timestampMillis - r.events[0].timestampMillis) as real / scale * NANOS_PER_MILLI).Floor
  }

  lemma ProductPositive(x: real, y: real)
    requires x > 0.0 && y > 0.0
    ensures x * y > 0.0
  {
  }

  lemma DivideMonotone(x: real, y: real, d: real)
    requires d > 0.0 && x <= y
    ensures x / d <= y / d
  {
    var a, b := x / d, y / d;
    assert a * d == x && b * d == y;
    if b < a { ProductPositive(a - b, d); }
  }

  lemma FloorMonotone(x: real, y: real)
    requires x <= y
    ensures x.Floor <= y.Floor
  {
  }

  /** A validated trace is replayed in order and entirely within the run: every event falls due before the run ends. */
  lemma ScheduleFits(r: Replay, i: nat, j: nat)
    requires r.events != [] && Replayable(r) && i <= j < |r.events|
    ensures 0 <= DueNanos(r, i) <= DueNanos(r, j) < r.durationSeconds * 1000000000
  {
    var scale, first := Scale(r.timeScale), r.events[0].timestampMillis;
    var last := |r.events| - 1;
    var a, b := r.events[i].timestampMillis - first, r.events[j].timestampMillis - first;
    assert 0 <= a <= b <= Span(r.events);
    DivideMonotone(0.0, a as real, scale);
    DivideMonotone(a as real, b as real, scale);
    DivideMonotone(b as real, Span(r.events) as real, scale);
    assert 0.0 / scale == 0.0;
    var x, y := a as real / scale, b as real / scale;
    assert 0.0 <= x <= y < (r.durationSeconds * 1000) as real;
    FloorMonotone(x * NANOS_PER_MILLI, y * NANOS_PER_MILLI);
    assert y * NANOS_PER_MILLI < (r.durationSeconds * 1000000000) as real;
  }

  // ----- the import

  /** A decoded row; its time is a number of milliseconds when it has a readable one. */
  datatype TraceRow = TraceRow(time: Option<real>, promptTokens: int, maxTokens: int, promptLength: nat)

  datatype Import = Imported(events: seq<TraceEvent>) | NoEvents | TooManyEvents | NoTimestamp | NotInOrder

  /** Math.round. */
  function Round(x: real): int { (x + 0.5).Floor }

  function Times(rows: seq<TraceRow>): seq<real>
    requires forall i :: 0 <= i < |rows| ==> rows[i].time.Some?
  {
    seq(|rows|, i requires 0 <= i < |rows| => rows[i].time.value)
  }

  predicate AllTimed(rows: seq<TraceRow>) { forall i :: 0 <= i < |rows| ==> rows[i].time.Some? }

  predicate InOrder(times: seq<real>) { forall i :: 1 <= i < |times| ==> times[i - 1] <= times[i] }

  function EventOf(row: TraceRow, time: real, first: real): TraceEvent
  {
    TraceEvent(Round(time - first), row.promptTokens, row.maxTokens, row.promptLength)
  }

  function ParseTrace(rows: seq<TraceRow>): Import
  {
    if |rows| == 0 then NoEvents
    else if |rows| > MAX_TRACE_EVENTS then TooManyEvents
    else if !AllTimed(rows) then NoTimestamp
    else
      var times := Times(rows);
      if !InOrder(times) then NotInOrder
      else Imported(seq(|rows|, i requires 0 <= i < |rows| => EventOf(rows[i], times[i], times[0])))
  }

  function Ceiling(x: real): int { -((-x).Floor) }

  /** The run duration the page fills in. */
  function TraceDurationSeconds(events: seq<TraceEvent>, timeScale: real): int
  {
    if events == [] then 0
    else
      var scale := if timeScale > 0.0 then timeScale else 1.0;
      Max(1, Ceiling(events[|events| - 1].timestampMillis as real / scale / 1000.0) + 1)
  }

  lemma {:induction false} OrderSpreads(times: seq<real>, i: nat, j: nat)
    requires InOrder(times) && i <= j < |times|
    ensures times[i] <= times[j]
    decreases j - i
  {
    if i < j { OrderSpreads(times, i, j - 1); }
  }

  /** Importing keeps the order and starts the trace at 0. */
  lemma ImportKeepsOrder(rows: seq<TraceRow>, i: nat, j: nat)
    requires ParseTrace(rows).Imported? && i <= j < |rows|
    ensures var events := ParseTrace(rows).events;
            && |events| == |rows| && events[0].timestampMillis == 0
            && 0 <= events[i].timestampMillis <= events[j].timestampMillis
  {
    var times := Times(rows);
    OrderSpreads(times, 0, i);
    OrderSpreads(times, i, j);
    FloorMonotone(times[0] - times[0] + 0.5, times[i] - times[0] + 0.5);
    FloorMonotone(times[i] - times[0] + 0.5, times[j] - times[0] + 0.5);
  }

  /** Exactly the row lists that are not empty, not too long, completely timed and in order are imported. */
  lemma ImportAccepts(rows: seq<TraceRow>)
    ensures ParseTrace(rows).Imported? <==>
              0 < |rows| <= MAX_TRACE_EVENTS && AllTimed(rows)
              && forall i, j :: 0 <= i <= j < |rows| ==> rows[i].time.value <= rows[j].time.value
  {
    if 0 < |rows| && AllTimed(rows) && InOrder(Times(rows)) {
      forall i, j | 0 <= i <= j < |rows| ensures rows[i].time.value <= rows[j].time.value {
        OrderSpreads(Times(rows), i, j);
      }
    }
  }

  predicate TokensOk(row: TraceRow)
  {
    && 0 <= row.promptTokens <= MAX_MODEL_TOKENS && 0 <= row.maxTokens <= MAX_MODEL_TOKENS
    && row.promptLength <= MAX_EVENT_PROMPT
  }

  lemma CeilingCovers(x: real)
    ensures x < (Ceiling(x / 1000.0) + 1) as real * 1000.0
  {
  }

  /** From the page to the agent: a trace that the page imports, run for the duration the page computes at the same time
      scale, passes the controller's checks, and so the agent replays all of it in time. */
  lemma ImportedTraceIsReplayable(rows: seq<TraceRow>, timeScale: real, shards: int)
    requires ParseTrace(rows).Imported? && 0.0 <= timeScale <= MAX_TRACE_SCALE && shards <= 1
    requires forall i :: 0 <= i < |rows| ==> TokensOk(rows[i])
    ensures var events := ParseTrace(rows).events;
            && events != []
            && Replayable(Replay(RPS, 0, shards, TraceDurationSeconds(events, timeScale), timeScale, events))
  {
    var events := ParseTrace(rows).events;
    forall i, j | 0 <= i <= j < |events|
      ensures 0 <= events[i].timestampMillis <= events[j].timestampMillis
    {
      ImportKeepsOrder(rows, i, j);
    }
    ImportKeepsOrder(rows, 0, 0);
    forall i | 0 <= i < |events| ensures EventOk(events[i], -1) { assert TokensOk(rows[i]); }
    var last := events[|events| - 1].timestampMillis;
    CeilingCovers(last as real / Scale(timeScale));
  }
}
