/** What a ledger says about the log it was kept from: counters count, samples are spread evenly, every scenario and
    every second gets its own, and the guardrail stops a run for good. */
module LedgerProperties {
  import opened Core
  import opened Folds
  import opened SampleSets
  import opened Ledgers

  // ----- counters

  datatype LedgerCounter =
    | Issued | Cancelled | HttpFailures | TransportErrors | Successes | Goodput | Dropped | Sessions | CompletedSessions
    | SteadySamples | MissingUsage | ContentChunks | PromptTokens | CompletionTokens | ReasoningTokens
    | Status(code: int)
  {
    function In(l: Ledger): int
    {
      match this
      case Issued => l.totals.issued
      case Cancelled => l.totals.cancelled
      case HttpFailures => l.totals.httpFailures
      case TransportErrors => l.totals.transportErrors
      case Successes => l.totals.successes
      case Goodput => l.totals.goodput
      case Dropped => l.totals.dropped
      case Sessions => l.totals.sessions
      case CompletedSessions => l.totals.completedSessions
      case SteadySamples => l.totals.steadySamples
      case MissingUsage => l.totals.missingUsage
      case ContentChunks => l.totals.contentChunks
      case PromptTokens => l.totals.tokens.prompt
      case CompletionTokens => l.totals.tokens.completion
      case ReasoningTokens => l.totals.tokens.reasoning
      case Status(code) => if code in l.statusCounts then l.statusCounts[code] else 0
    }

    /** What one entry adds. */
    function Of(e: Entry, config: RunConfig): int
    {
      match this
      case Issued => One(e.Began?)
      case Cancelled => One(e.CutShort?)
      case HttpFailures => One(e.HttpFailed?)
      case TransportErrors => One(e.TransportFailed?)
      case Successes => One(e.Succeeded?)
      case Goodput => One(e.Succeeded? && MeetsSlo(e.latency, e.timing, e.usage, config))
      case Dropped => One(e.ArrivalDropped?)
      case Sessions => One(e.SessionStarted?)
      case CompletedSessions => One(e.SessionEnded? && e.completed)
      case SteadySamples => One(e.Measured())
      case MissingUsage => One(e.Succeeded? && !e.timing.usageReported)
      case ContentChunks => if e.Succeeded? then e.timing.chunks else 0
      case PromptTokens => if e.Succeeded? then e.usage.prompt else 0
      case CompletionTokens => if e.Succeeded? then e.usage.completion else 0
      case ReasoningTokens => if e.Succeeded? then e.usage.reasoning else 0
      case Status(code) => One((e.Succeeded? || e.HttpFailed?) && e.status == code)
    }

    function Weight(config: RunConfig): Entry -> int { (e: Entry) => Of(e, config) }
  }

  lemma ReplayLast(log: seq<Entry>, config: RunConfig)
    requires log != []
    ensures var n := |log| - 1;
            && Replay(log, config) == Apply(Replay(log[..n], config), log[n], config)
            && log == log[..n] + [log[n]]
  {
    hide Apply;
  }

  lemma LastTotals(l: Ledger, e: Entry, config: RunConfig)
    ensures var l' := Apply(l, e, config);
            l'.totals == AddTotals(l.totals, e, config) && l'.statusCounts == AddStatusOf(l.statusCounts, e)
  {
    hide AddTotals, AddStatusOf, Violation, AddSamples, AddToTimeline, AddToScenarios, AddError;
  }

  lemma EntryCounts(l: Ledger, e: Entry, config: RunConfig, counter: LedgerCounter)
    ensures counter.In(Apply(l, e, config)) == counter.In(l) + counter.Of(e, config)
  {
    hide MeetsSlo, Apply;
    LastTotals(l, e, config);
  }

  lemma NothingCounted(log: seq<Entry>, config: RunConfig, counter: LedgerCounter)
    requires log == []
    ensures counter.In(Replay(log, config)) == SumBy(counter.Weight(config), log)
  {
  }

  /** Every counter is what its name says, counted over the whole log. */
  lemma {:induction false} CountersCount(log: seq<Entry>, config: RunConfig, counter: LedgerCounter)
    ensures counter.In(Replay(log, config)) == SumBy(counter.Weight(config), log)
  {
    hide Apply, Replay, SumBy, LedgerCounter.In, LedgerCounter.Of;
    if log == [] {
      NothingCounted(log, config, counter);
    } else {
      var n := |log| - 1;
      CountersCount(log[..n], config, counter);
      ReplayLast(log, config);
      EntryCounts(Replay(log[..n], config), log[n], config, counter);
      SumBySnoc(counter.Weight(config), log[..n], log[n]);
    }
  }

  /** The parts of a ledger that the guardrail does not touch follow the log entry by entry. */
  lemma LastEntry(log: seq<Entry>, config: RunConfig)
    requires log != []
    ensures var l, before, e := Replay(log, config), Replay(log[..|log| - 1], config), log[|log| - 1];
            && l.samples == AddSamples(before.samples, e) && l.timeline == AddToTimeline(before.timeline, e)
            && l.scenarios == AddToScenarios(before.scenarios, e) && l.errors == AddError(before.errors, e)
  {
    hide AddSamples, AddToTimeline, AddToScenarios, AddTotals, AddError, Violation;
  }

  // ----- samples

  datatype SampleKind = Latencies | Ttfts | Ttfos | Itls | Tpots | GeneratorDelays
  {
    function In(s: Samples): SampleSet
    {
      match this
      case Latencies => s.latencies
      case Ttfts => s.ttfts
      case Ttfos => s.ttfos
      case Itls => s.itls
      case Tpots => s.tpots
      case GeneratorDelays => s.generatorDelays
    }

    /** The values an entry offers: steady successes only, but the delay of every request. */
    function Of(e: Entry): seq<nat>
    {
      if GeneratorDelays? then if e.Began? then [e.delay] else []
      else if !e.Measured() then []
      else match this
           case Latencies => [e.latency]
           case Ttfts => [e.timing.ttft]
           case Ttfos => [e.timing.ttfo]
           case Itls => e.timing.itls
           case _ => if e.timing.tpot > 0 then [e.timing.tpot] else []
    }

    function From(): Entry -> seq<nat> { (e: Entry) => Of(e) }
  }

  /** All values of one kind, in the order they were recorded. */
  function Measured(kind: SampleKind, log: seq<Entry>): seq<nat> { Flatten(Map(kind.From(), log)) }

  lemma MeasuredSnoc(kind: SampleKind, log: seq<Entry>, e: Entry)
    ensures Measured(kind, log + [e]) == Measured(kind, log) + kind.Of(e)
  {
    MapSnoc(kind.From(), log, e);
    FlattenSnoc(Map(kind.From(), log), kind.Of(e));
  }

  lemma KeepIsKeepAll(s: SampleSet, value: nat)
    ensures Keep(s, value) == KeepAll(s, [value]) && KeepAll(s, []) == s
  {
    hide Add;
    assert [value][..0] == [];
    assert AddAll(s, [], MAX_SAMPLES_PER_METRIC) == s;
  }

  lemma EntrySamples(s: Samples, e: Entry, kind: SampleKind)
    ensures kind.In(AddSamples(s, e)) == KeepAll(kind.In(s), kind.Of(e))
  {
    KeepIsKeepAll(kind.In(s), 0);
    if e.Began? { KeepIsKeepAll(s.generatorDelays, e.delay); }
    if e.Measured() {
      KeepIsKeepAll(s.latencies, e.latency);
      KeepIsKeepAll(s.ttfts, e.timing.ttft);
      KeepIsKeepAll(s.ttfos, e.timing.ttfo);
      KeepIsKeepAll(s.tpots, e.timing.tpot);
    }
    hide Keep, KeepAll;
  }

  /** Each sample set is the evenly thinned rest of everything measured. */
  lemma {:induction false} SamplesAreThinned(log: seq<Entry>, config: RunConfig, kind: SampleKind)
    ensures kind.In(Replay(log, config).samples) == Thinned(Measured(kind, log), MAX_SAMPLES_PER_METRIC)
  {
    AddAllIsThinned(Measured(kind, log), MAX_SAMPLES_PER_METRIC);
    if log != [] {
      var n := |log| - 1;
      hide Apply, AddSamples, AddAll, Add, Thinned, Measured;
      LastEntry(log, config);
      SamplesAreThinned(log[..n], config, kind);
      AddAllIsThinned(Measured(kind, log[..n]), MAX_SAMPLES_PER_METRIC);
      EntrySamples(Replay(log[..n], config).samples, log[n], kind);
      assert log == log[..n] + [log[n]];
      MeasuredSnoc(kind, log[..n], log[n]);
      AddAllConcat(EMPTY, Measured(kind, log[..n]), kind.Of(log[n]), MAX_SAMPLES_PER_METRIC);
    }
  }

  // ----- error messages

  function Cut(message: string): string
  {
    if |message| > MAX_ERROR_LENGTH then message[..MAX_ERROR_LENGTH] else message
  }

  function MessageOf(): Entry -> seq<string>
  {
    (e: Entry) => if e.HttpFailed? || e.TransportFailed? then [Cut(e.message)] else []
  }

  /** The messages of all failures, each cut to the maximum length. */
  function Messages(log: seq<Entry>): seq<string> { Flatten(Map(MessageOf(), log)) }

  function FirstErrors(messages: seq<string>): seq<string> { messages[..Min(|messages|, MAX_ERRORS)] }

  lemma MessagesSnoc(log: seq<Entry>, e: Entry)
    ensures Messages(log + [e]) == Messages(log) + MessageOf()(e)
  {
    MapSnoc(MessageOf(), log, e);
    FlattenSnoc(Map(MessageOf(), log), MessageOf()(e));
  }

  lemma ErrorStep(messages: seq<string>, e: Entry)
    ensures AddError(FirstErrors(messages), e) == FirstErrors(messages + MessageOf()(e))
  {
  }

  /** The first failures are remembered, and only so many. */
  lemma {:induction false} ErrorsAreTheFirst(log: seq<Entry>, config: RunConfig)
    ensures Replay(log, config).errors == Messages(log)[..Min(|Messages(log)|, MAX_ERRORS)]
  {
    assert Replay(log, config).errors == FirstErrors(Messages(log)) by {
      if log == [] {
        assert Map(MessageOf(), log) == [];
      } else {
        hide Replay, Apply, AddError, Messages, FirstErrors;
        var n := |log| - 1;
        ErrorsAreTheFirst(log[..n], config);
        LastEntry(log, config);
        ReplayLast(log, config);
        MessagesSnoc(log[..n], log[n]);
        ErrorStep(Messages(log[..n]), log[n]);
      }
    }
  }

  // ----- scenarios

  datatype ScenarioColumn = IssuedIn | CompletedIn | FailuresIn | CancelledIn | OutputIn | InputIn
  {
    function In(r: ScenarioRow): int
    {
      match this
      case IssuedIn => r.issued
      case CompletedIn => r.completed
      case FailuresIn => r.failures
      case CancelledIn => r.cancelled
      case OutputIn => r.outputTokens
      case InputIn => r.inputTokens
    }

    function Of(e: Entry): int
    {
      match this
      case IssuedIn => One(e.Began?)
      case CompletedIn => One(e.Succeeded? || e.HttpFailed?)
      case FailuresIn => One(e.HttpFailed? || e.TransportFailed?)
      case CancelledIn => One(e.CutShort?)
      case OutputIn => if e.Succeeded? then e.usage.completion else 0
      case InputIn => if e.Succeeded? then e.usage.prompt else 0
    }

    /** This column, for the requests of one scenario. */
    function Weight(name: string): Entry -> int
    {
      (e: Entry) => if OfScenario(e, name) then Of(e) else 0
    }
  }

  predicate OfScenario(e: Entry, name: string) { e.OfRequest() && e.call.scenario == name }

  function ScenarioRowOf(t: ScenarioTable, name: string): ScenarioRow
  {
    if name in t.rows then t.rows[name] else NO_SCENARIO_ROW
  }

  ghost predicate Listed(t: ScenarioTable)
  {
    && (forall name :: name in t.order <==> name in t.rows)
    && (forall i, j :: 0 <= i < j < |t.order| ==> t.order[i] != t.order[j])
    && "" !in t.rows
  }

  /** Some request of this scenario was recorded. */
  ghost predicate Mentioned(log: seq<Entry>, name: string) { exists i :: 0 <= i < |log| && OfScenario(log[i], name) }

  lemma MentionedSnoc(log: seq<Entry>, e: Entry, name: string)
    ensures Mentioned(log + [e], name) <==> Mentioned(log, name) || OfScenario(e, name)
  {
    hide OfScenario;
    assert (log + [e])[|log|] == e;
    assert forall i :: 0 <= i < |log| ==> (log + [e])[i] == log[i];
  }

  lemma ScenarioListed(t: ScenarioTable, e: Entry, name: string)
    requires Listed(t) && name != ""
    ensures Listed(AddToScenarios(t, e))
    ensures name in AddToScenarios(t, e).rows <==> name in t.rows || OfScenario(e, name)
  {
    hide AddToScenarioRow;
  }

  lemma ScenarioStep(t: ScenarioTable, e: Entry, name: string, column: ScenarioColumn)
    requires name != ""
    ensures column.In(ScenarioRowOf(AddToScenarios(t, e), name))
         == column.In(ScenarioRowOf(t, name)) + column.Weight(name)(e)
  {
    hide Add;
  }

  lemma NoScenarios(log: seq<Entry>, config: RunConfig, name: string, column: ScenarioColumn)
    requires log == []
    ensures var t := Replay(log, config).scenarios;
            && Listed(t) && name !in t.rows && !Mentioned(log, name)
            && column.In(ScenarioRowOf(t, name)) == SumBy(column.Weight(name), log)
  {
  }

  /** Scenarios are listed once each, in the order they turned up, and each one's figures are about its own requests. */
  lemma {:induction false} ScenariosCount(log: seq<Entry>, config: RunConfig, name: string, column: ScenarioColumn)
    requires name != ""
    ensures var t := Replay(log, config).scenarios;
            && Listed(t) && (name in t.rows <==> Mentioned(log, name))
            && column.In(ScenarioRowOf(t, name)) == SumBy(column.Weight(name), log)
  {
    hide Apply, AddToScenarios, Listed, ScenarioRowOf, OfScenario, Mentioned, Replay, SumBy;
    if log == [] {
      NoScenarios(log, config, name, column);
    } else {
      var n := |log| - 1;
      LastEntry(log, config);
      ReplayLast(log, config);
      ScenariosCount(log[..n], config, name, column);
      ScenarioListed(Replay(log[..n], config).scenarios, log[n], name);
      ScenarioStep(Replay(log[..n], config).scenarios, log[n], name, column);
      MentionedSnoc(log[..n], log[n], name);
      SumBySnoc(column.Weight(name), log[..n], log[n]);
    }
  }

  /** The steady successes of one scenario. */
  predicate MeasuredIn(e: Entry, name: string) { e.Measured() && e.call.scenario == name }

  function LatencyIn(name: string): Entry -> seq<nat> { (e: Entry) => if MeasuredIn(e, name) then [e.latency] else [] }
  function TtftIn(name: string): Entry -> seq<nat> { (e: Entry) => if MeasuredIn(e, name) then [e.timing.ttft] else [] }

  lemma ScenarioKeeps(t: ScenarioTable, e: Entry, name: string)
    requires name != ""
    ensures var r, r' := ScenarioRowOf(t, name), ScenarioRowOf(AddToScenarios(t, e), name);
            && r'.latencies == KeepAll(r.latencies, LatencyIn(name)(e))
            && r'.ttfts == KeepAll(r.ttfts, TtftIn(name)(e))
  {
    var r := ScenarioRowOf(t, name);
    KeepIsKeepAll(r.latencies, 0);
    KeepIsKeepAll(r.ttfts, 0);
    if MeasuredIn(e, name) {
      KeepIsKeepAll(r.latencies, e.latency);
      KeepIsKeepAll(r.ttfts, e.timing.ttft);
    }
    hide Keep, KeepAll;
  }

  lemma KeptSnoc(from: Entry -> seq<nat>, log: seq<Entry>, e: Entry)
    ensures KeepAll(KeepAll(EMPTY, Flatten(Map(from, log))), from(e)) == KeepAll(EMPTY, Flatten(Map(from, log + [e])))
  {
    MapSnoc(from, log, e);
    FlattenSnoc(Map(from, log), from(e));
    AddAllConcat(EMPTY, Flatten(Map(from, log)), from(e), MAX_SAMPLES_PER_METRIC);
  }

  lemma KeptNothing(from: Entry -> seq<nat>)
    ensures KeepAll(EMPTY, Flatten(Map(from, []))) == EMPTY
  {
    KeepIsKeepAll(EMPTY, 0);
  }

  lemma {:induction false} ScenarioSamplesKept(log: seq<Entry>, config: RunConfig, name: string)
    requires name != ""
    ensures var r := ScenarioRowOf(Replay(log, config).scenarios, name);
            && r.latencies == KeepAll(EMPTY, Flatten(Map(LatencyIn(name), log)))
            && r.ttfts == KeepAll(EMPTY, Flatten(Map(TtftIn(name), log)))
  {
    hide Apply, AddToScenarios, KeepAll, LatencyIn, TtftIn, Flatten;
    if log == [] {
      KeptNothing(LatencyIn(name));
      KeptNothing(TtftIn(name));
    } else {
      hide ScenarioRowOf;
      var n := |log| - 1;
      ScenarioSamplesKept(log[..n], config, name);
      LastEntry(log, config);
      ScenarioKeeps(Replay(log[..n], config).scenarios, log[n], name);
      assert log == log[..n] + [log[n]];
      KeptSnoc(LatencyIn(name), log[..n], log[n]);
      KeptSnoc(TtftIn(name), log[..n], log[n]);
    }
  }

  /** A scenario's samples are the evenly thinned rest of its own steady measurements. */
  lemma ScenarioSamplesAreThinned(log: seq<Entry>, config: RunConfig, name: string)
    requires name != ""
    ensures var r := ScenarioRowOf(Replay(log, config).scenarios, name);
            && r.latencies == Thinned(Flatten(Map(LatencyIn(name), log)), MAX_SAMPLES_PER_METRIC)
            && r.ttfts == Thinned(Flatten(Map(TtftIn(name), log)), MAX_SAMPLES_PER_METRIC)
  {
    ScenarioSamplesKept(log, config, name);
    AddAllIsThinned(Flatten(Map(LatencyIn(name), log)), MAX_SAMPLES_PER_METRIC);
    AddAllIsThinned(Flatten(Map(TtftIn(name), log)), MAX_SAMPLES_PER_METRIC);
  }

  // ----- the timeline

  datatype RowColumn = IssuedAt | SuccessesAt | FailuresAt | CancelledAt | CompletedAt
  {
    function In(r: Row): int
    {
      match this
      case IssuedAt => r.issued
      case SuccessesAt => r.successes
      case FailuresAt => r.failures
      case CancelledAt => r.cancelled
      case CompletedAt => r.completed
    }

    function Of(e: Entry): int
    {
      match this
      case IssuedAt => One(e.Began?)
      case SuccessesAt => One(e.Succeeded?)
      case FailuresAt => One(e.HttpFailed? || e.TransportFailed?)
      case CancelledAt => One(e.CutShort?)
      case CompletedAt => One(e.Succeeded? || e.HttpFailed? || e.TransportFailed?)
    }

    /** This column, for what happened in one second. */
    function Weight(second: int): Entry -> int { (e: Entry) => if Happened(e, second) then Of(e) else 0 }
  }

  predicate Happened(e: Entry, second: int) { e.Timed() && e.second == second }

  /** The latencies of what finished in one second, failures included. */
  function FinishedAt(second: int): Entry -> seq<nat>
  {
    (e: Entry) =>
      if Happened(e, second) && (e.Succeeded? || e.HttpFailed? || e.TransportFailed?) then [e.latency] else []
  }

  function LatenciesAt(second: int, log: seq<Entry>): seq<nat> { Flatten(Map(FinishedAt(second), log)) }

  lemma LatenciesAtSnoc(second: int, log: seq<Entry>, e: Entry)
    ensures LatenciesAt(second, log + [e]) == LatenciesAt(second, log) + FinishedAt(second)(e)
  {
    MapSnoc(FinishedAt(second), log, e);
    FlattenSnoc(Map(FinishedAt(second), log), FinishedAt(second)(e));
  }

  function FirstOnes(values: seq<nat>): seq<nat> { values[..Min(|values|, MAX_SECOND_SAMPLES)] }

  /** A row holds what happened in its second; without a row nothing did, or there was no room for the
      second any more. */
  ghost predicate RowOk(t: Timeline, log: seq<Entry>, second: int)
  {
    if second in t then
      && (forall column: RowColumn :: column.In(t[second]) == SumBy(column.Weight(second), log))
      && t[second].latencies == FirstOnes(LatenciesAt(second, log))
    else |t| == MAX_TIMELINE_POINTS || forall i :: 0 <= i < |log| ==> !Happened(log[i], second)
  }

  lemma {:induction false} NothingInSecond(log: seq<Entry>, second: int, column: RowColumn)
    requires forall i :: 0 <= i < |log| ==> !Happened(log[i], second)
    ensures SumBy(column.Weight(second), log) == 0 && LatenciesAt(second, log) == []
  {
    if log != [] {
      var n := |log| - 1;
      assert log == log[..n] + [log[n]];
      NothingInSecond(log[..n], second, column);
      SumBySnoc(column.Weight(second), log[..n], log[n]);
      LatenciesAtSnoc(second, log[..n], log[n]);
    }
  }

  /** The row a second has, or would start with. */
  function RowFor(t: Timeline, second: int): Row { if second in t then t[second] else NO_ROW }

  lemma RowBefore(t: Timeline, log: seq<Entry>, second: int, column: RowColumn)
    requires RowOk(t, log, second) && (second in t || |t| < MAX_TIMELINE_POINTS)
    ensures column.In(RowFor(t, second)) == SumBy(column.Weight(second), log)
    ensures RowFor(t, second).latencies == FirstOnes(LatenciesAt(second, log))
  {
    if second !in t { NothingInSecond(log, second, column); }
  }

  lemma EntryInRow(r: Row, e: Entry, second: int, values: seq<nat>, column: RowColumn)
    requires Happened(e, second) && r.latencies == FirstOnes(values)
    ensures column.In(AddToRow(r, e)) == column.In(r) + column.Weight(second)(e)
    ensures AddToRow(r, e).latencies == FirstOnes(values + FinishedAt(second)(e))
  {
  }

  lemma OtherSecond(e: Entry, second: int, column: RowColumn)
    requires !Happened(e, second)
    ensures column.Weight(second)(e) == 0 && FinishedAt(second)(e) == []
  {
  }

  lemma RowElsewhere(t: Timeline, log: seq<Entry>, e: Entry, second: int)
    requires RowOk(t, log, second) && !Happened(e, second)
    ensures RowOk(t, log + [e], second)
  {
    hide LatenciesAt, FirstOnes, Happened;
    LatenciesAtSnoc(second, log, e);
    OtherSecond(e, second, IssuedAt);
    assert LatenciesAt(second, log + [e]) == LatenciesAt(second, log);
    forall i | 0 <= i < |log + [e]| && second !in t && |t| != MAX_TIMELINE_POINTS
      ensures !Happened((log + [e])[i], second)
    {
      if i < |log| { assert (log + [e])[i] == log[i]; }
    }
    forall column: RowColumn ensures SumBy(column.Weight(second), log + [e]) == SumBy(column.Weight(second), log) {
      SumBySnoc(column.Weight(second), log, e);
      OtherSecond(e, second, column);
    }
  }

  lemma RowHere(t: Timeline, log: seq<Entry>, e: Entry, second: int, column: RowColumn)
    requires RowOk(t, log, second) && Happened(e, second) && (second in t || |t| < MAX_TIMELINE_POINTS)
    ensures var r := AddToRow(RowFor(t, second), e);
            && column.In(r) == SumBy(column.Weight(second), log + [e])
            && r.latencies == FirstOnes(LatenciesAt(second, log + [e]))
  {
    hide LatenciesAt, FirstOnes, RowOk;
    LatenciesAtSnoc(second, log, e);
    SumBySnoc(column.Weight(second), log, e);
    RowBefore(t, log, second, column);
    EntryInRow(RowFor(t, second), e, second, LatenciesAt(second, log), column);
  }

  lemma TimelineStep(t: Timeline, log: seq<Entry>, e: Entry, second: int)
    requires |t| <= MAX_TIMELINE_POINTS && RowOk(t, log, second)
    ensures |AddToTimeline(t, e)| <= MAX_TIMELINE_POINTS && RowOk(AddToTimeline(t, e), log + [e], second)
  {
    hide LatenciesAt, FirstOnes, AddToRow;
    if !Happened(e, second) {
      RowElsewhere(t, log, e, second);
    } else if second in t || |t| < MAX_TIMELINE_POINTS {
      var r := AddToRow(RowFor(t, second), e);
      assert AddToTimeline(t, e)[second] == r;
      RowHere(t, log, e, second, IssuedAt);
      forall column: RowColumn ensures column.In(r) == SumBy(column.Weight(second), log + [e]) {
        RowHere(t, log, e, second, column);
      }
    }
  }

  /** At most one row a second and never more than the cap; each row counts exactly what happened in its second; and
      what is lost, is lost because the cap was reached. */
  lemma {:induction false} TimelineCounts(log: seq<Entry>, config: RunConfig, second: int)
    ensures var t := Replay(log, config).timeline; |t| <= MAX_TIMELINE_POINTS && RowOk(t, log, second)
  {
    if log != [] {
      hide Apply, AddToTimeline, RowOk;
      var n := |log| - 1;
      LastEntry(log, config);
      TimelineCounts(log[..n], config, second);
      TimelineStep(Replay(log[..n], config).timeline, log[..n], log[n], second);
      assert log == log[..n] + [log[n]];
    }
  }

  lemma {:induction false} LatenciesAreCompleted(log: seq<Entry>, second: int)
    ensures |LatenciesAt(second, log)| == SumBy(CompletedAt.Weight(second), log)
  {
    if log != [] {
      var n := |log| - 1;
      assert log == log[..n] + [log[n]];
      LatenciesAreCompleted(log[..n], second);
      LatenciesAtSnoc(second, log[..n], log[n]);
      SumBySnoc(CompletedAt.Weight(second), log[..n], log[n]);
    }
  }

  /** A row keeps the latencies of everything that completed in its second, in order, up to the limit per second. */
  lemma RowKeepsLatencies(log: seq<Entry>, config: RunConfig, second: int)
    requires second in Replay(log, config).timeline
    ensures var r := Replay(log, config).timeline[second];
            && |r.latencies| == Min(r.completed, MAX_SECOND_SAMPLES) && r.latencies <= LatenciesAt(second, log)
  {
    TimelineCounts(log, config, second);
    LatenciesAreCompleted(log, second);
    hide Replay;
    assert CompletedAt.In(Replay(log, config).timeline[second]) == SumBy(CompletedAt.Weight(second), log);
  }

  // ----- gauges

  datatype Gauge = ActiveGauge | WaitingGauge | LoadGauge
  {
    function In(r: Row): nat
    {
      match this
      case ActiveGauge => r.active
      case WaitingGauge => r.waiting
      case LoadGauge => r.targetLoad
    }

    /** The reading an entry takes in a second, 0 for none. */
    function Reading(e: Entry, second: int): nat
    {
      if !e.GaugesSampled? || e.second != second then 0
      else match this
           case ActiveGauge => e.active
           case WaitingGauge => e.waiting
           case LoadGauge => e.targetLoad
    }
  }

  /** The highest reading of a second, 0 without any. */
  function Peak(gauge: Gauge, second: int, log: seq<Entry>): (peak: nat)
    ensures forall i :: 0 <= i < |log| ==> gauge.Reading(log[i], second) <= peak
    ensures peak > 0 ==> exists i :: 0 <= i < |log| && gauge.Reading(log[i], second) == peak
  {
    if log == [] then 0
    else
      var before, reading := Peak(gauge, second, log[..|log| - 1]), gauge.Reading(log[|log| - 1], second);
      assert forall i :: 0 <= i < |log| - 1 ==> log[..|log| - 1][i] == log[i];
      if reading > before then reading else before
  }

  lemma GaugeStep(r: Row, e: Entry, second: int, gauge: Gauge)
    requires e.Timed() && e.second == second
    ensures gauge.In(AddToRow(r, e)) == Max(gauge.In(r), gauge.Reading(e, second))
  {
  }

  lemma PeakOfNothing(gauge: Gauge, second: int, log: seq<Entry>)
    requires forall i :: 0 <= i < |log| ==> !Happened(log[i], second)
    ensures Peak(gauge, second, log) == 0
  {
  }

  lemma GaugeInTimeline(t: Timeline, e: Entry, second: int, gauge: Gauge, peak: nat)
    requires second in AddToTimeline(t, e) && gauge.In(RowFor(t, second)) == peak
    ensures gauge.In(AddToTimeline(t, e)[second]) == Max(peak, gauge.Reading(e, second))
  {
    if Happened(e, second) { GaugeStep(RowFor(t, second), e, second, gauge); }
    hide AddToRow;
  }

  /** The gauges of a row are the highest readings of its second. */
  lemma {:induction false} GaugesArePeaks(log: seq<Entry>, config: RunConfig, second: int, gauge: Gauge)
    requires second in Replay(log, config).timeline
    ensures gauge.In(Replay(log, config).timeline[second]) == Peak(gauge, second, log)
  {
    var n := |log| - 1;
    LastEntry(log, config);
    hide Apply;
    var t := Replay(log[..n], config).timeline;
    TimelineCounts(log[..n], config, second);
    if second in t {
      GaugesArePeaks(log[..n], config, second, gauge);
    } else {
      PeakOfNothing(gauge, second, log[..n]);
    }
    hide Replay, RowOk;
    GaugeInTimeline(t, log[n], second, gauge, Peak(gauge, second, log[..n]));
  }

  // ----- the guardrail

  /** Enough steady samples to judge, and a limit is broken. */
  predicate Breaks(l: Ledger, config: RunConfig)
  {
    l.totals.steadySamples >= MIN_GUARDRAIL_SAMPLES && Violation(l.totals, l.samples, config) != ""
  }

  /** The first success after which a limit was broken. */
  ghost predicate FirstBreak(log: seq<Entry>, config: RunConfig, n: nat)
  {
    && BreaksAt(log, config, n)
    && forall m :: 0 <= m < n ==> !BreaksAt(log, config, m)
  }

  ghost predicate BreaksAt(log: seq<Entry>, config: RunConfig, n: nat)
  {
    n < |log| && log[n].Succeeded? && Breaks(Replay(log[..n + 1], config), config)
  }

  lemma StopOnce(l: Ledger, e: Entry, config: RunConfig)
    ensures var l' := Apply(l, e, config);
            && (l.stopped ==> l'.stopped && l'.guardrail == l.guardrail)
            && (!l.stopped ==> (l'.stopped <==> e.Succeeded? && Breaks(l', config)))
            && (!l.stopped && l'.stopped ==> l'.guardrail == Violation(l'.totals, l'.samples, config))
            && (!l.stopped && !l'.stopped ==> l'.guardrail == l.guardrail)
  {
    hide AddToScenarios, AddTotals, AddSamples, AddToTimeline, Violation;
  }

  lemma BreaksEarlier(log: seq<Entry>, config: RunConfig, n: nat, m: nat)
    requires m < n <= |log|
    ensures BreaksAt(log[..n], config, m) <==> BreaksAt(log, config, m)
  {
    hide Breaks, Replay;
    assert log[..n][..m + 1] == log[..m + 1];
  }

  /** The guardrail stops a run exactly when some success broke a limit, reports the first limit broken, and never takes
      it back. */
  lemma {:induction false} GuardrailStops(log: seq<Entry>, config: RunConfig)
    ensures var l := Replay(log, config);
            && (l.stopped <==> exists n :: 0 <= n < |log| && BreaksAt(log, config, n))
            && (!l.stopped ==> l.guardrail == "")
            && (l.stopped ==> exists n :: 0 <= n < |log| && FirstBreak(log, config, n)
                                          && l.guardrail == Violation(Replay(log[..n + 1], config).totals,
                                                                      Replay(log[..n + 1], config).samples, config))
  {
    hide Apply, Violation, Breaks;
    if log != [] {
      var k := |log| - 1;
      var before := log[..k];
      GuardrailStops(before, config);
      StopOnce(Replay(before, config), log[k], config);
      assert log[..k + 1] == log;
      forall m: nat | m < k ensures BreaksAt(before, config, m) <==> BreaksAt(log, config, m) {
        BreaksEarlier(log, config, k, m);
      }
      if Replay(before, config).stopped {
        var n :| 0 <= n < k && FirstBreak(before, config, n)
                 && Replay(before, config).guardrail == Violation(Replay(before[..n + 1], config).totals,
                                                                  Replay(before[..n + 1], config).samples, config);
        assert before[..n + 1] == log[..n + 1];
        assert FirstBreak(log, config, n);
      } else if Replay(log, config).stopped {
        assert BreaksAt(log, config, k);
        assert FirstBreak(log, config, k);
      }
    }
  }
}
