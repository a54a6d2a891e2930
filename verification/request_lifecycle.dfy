/** The life of a request on an agent (internal/agent/runner.go, `doRequest`), with any number of requests in flight at
    once and their records made in any order. */
module RequestLifecycle {
  import opened Core
  import opened Folds
  import opened Ledgers
  import opened LedgerProperties
  import opened Measurement

  // ----- how a request ends

  datatype Body = Unread(stopping: bool, message: string) | Read(timing: Timing, usage: Usage)

  /** What became of an exchange with the target; `stopping` says that the run's own context ended it. Only a model's
      body is read for its content; with any other target `ttft`, the time of the headers, is all there is. */
  datatype Exchange =
    | EncodingFailed
    | RequestInvalid
    | NoResponse(stopping: bool, message: string)
    | Response(model: bool, status: int, statusText: string, ttft: nat, body: Body)

  /** What is known of a response whose body was discarded. */
  function HeadersOnly(ttft: nat): Timing { Timing(ttft, 0, 0, [], 0, false) }
  const NO_USAGE := Usage(0, 0, 0)

  predicate Accepted(status: int) { 200 <= status < 400 }

  /** A model's response with a good status whose body broke off. */
  predicate BrokenOff(exchange: Exchange)
  {
    exchange.Response? && exchange.model && Accepted(exchange.status) && exchange.body.Unread?
  }

  /** The entry that doRequest makes for a begun request, whichever way it returns. */
  function Outcome(call: Attempt, exchange: Exchange, second: int, latency: nat): (e: Entry)
    ensures e.Outcome() && e.call == call && e.second == second
    ensures e.Succeeded? <==> exchange.Response? && Accepted(exchange.status) && !BrokenOff(exchange)
    ensures e.HttpFailed? <==> exchange.Response? && !Accepted(exchange.status)
    ensures e.CutShort? <==> (exchange.NoResponse? && exchange.stopping)
                             || (BrokenOff(exchange) && exchange.body.stopping)
    ensures e.Succeeded? && !exchange.model ==> e.timing == HeadersOnly(exchange.ttft) && e.usage == NO_USAGE
  {
    match exchange
    case EncodingFailed => TransportFailed(call, second, latency, "encode request")
    case RequestInvalid => TransportFailed(call, second, latency, "create request")
    case NoResponse(stopping, message) => Aborted(call, second, latency, stopping, message)
    case Response(model, status, text, ttft, body) =>
      if BrokenOff(exchange) then Aborted(call, second, latency, body.stopping, body.message)
      else if status < 200 || status >= 400 then HttpFailed(call, second, latency, status, "HTTP " + text)
      else if model then Succeeded(call, second, latency, body.timing, status, body.usage)
      else Succeeded(call, second, latency, HeadersOnly(ttft), status, NO_USAGE)
  }

  /** The tail of doRequest: every path records exactly one outcome. */
  method FinishRequest(m: Measurements, call: Attempt, exchange: Exchange, second: int, latency: nat)
    modifies m
    ensures m.Value() == Apply(old(m.Value()), Outcome(call, exchange, second, latency), m.config)
    ensures m.runCancelled == (old(m.runCancelled) || (m.stopped && !old(m.stopped)))
  {
    hide Apply;
    if exchange.EncodingFailed? {
      m.RecordTransportError(call, second, latency, "encode request");
      return;
    }
    if exchange.RequestInvalid? {
      m.RecordTransportError(call, second, latency, "create request");
      return;
    }
    if exchange.NoResponse? {
      m.RecordAborted(call, second, latency, exchange.stopping, exchange.message);
      return;
    }
    var timing, usage := HeadersOnly(exchange.ttft), NO_USAGE;
    if exchange.model && Accepted(exchange.status) {
      if exchange.body.Unread? {
        m.RecordAborted(call, second, latency, exchange.body.stopping, exchange.body.message);
        return;
      }
      timing, usage := exchange.body.timing, exchange.body.usage;
    }
    if exchange.status < 200 || exchange.status >= 400 {
      m.RecordHTTPFailure(call, second, latency, exchange.status, "HTTP " + exchange.statusText);
      return;
    }
    m.RecordSuccess(call, second, latency, timing, exchange.status, usage);
  }

  // ----- many requests at once

  /** An agent: what it recorded so far, and its requests in flight under the numbers they began with. */
  datatype Agent = Agent(log: seq<Entry>, begun: nat, inFlight: map<nat, Attempt>)
  const IDLE := Agent([], 0, map[])

  datatype Action =
    | Begin(call: Attempt, second: int, delay: nat)
    | Finish(ticket: nat, exchange: Exchange, second: int, latency: nat)
    | Other(entry: Entry)

  ghost predicate Next(a: Agent, action: Action, a': Agent)
  {
    match action
    case Begin(call, second, delay) =>
      a' == Agent(a.log + [Began(call, second, delay)], a.begun + 1, a.inFlight[a.begun := call])
    case Finish(ticket, exchange, second, latency) =>
      && ticket in a.inFlight
      && a' == a.(log := a.log + [Outcome(a.inFlight[ticket], exchange, second, latency)],
          inFlight := a.inFlight - {ticket})
    case Other(entry) => !entry.OfRequest() && a' == a.(log := a.log + [entry])
  }

  ghost predicate StepAt(trace: seq<Agent>, actions: seq<Action>, i: nat)
    requires |trace| == |actions| + 1 && i < |actions|
  {
    Next(trace[i], actions[i], trace[i + 1])
  }

  ghost predicate History(trace: seq<Agent>, actions: seq<Action>)
  {
    |trace| == |actions| + 1 && trace[0] == IDLE && forall i :: 0 <= i < |actions| ==> StepAt(trace, actions, i)
  }

  /** Requests that began, or ended, with a property of the attempt. */
  function BeganWith(p: Attempt -> bool): Entry -> int { (e: Entry) => if e.Began? then One(p(e.call)) else 0 }
  function EndedWith(p: Attempt -> bool): Entry -> int { (e: Entry) => if e.Outcome() then One(p(e.call)) else 0 }
  ghost function Flying(inFlight: map<nat, Attempt>, p: Attempt -> bool): set<nat>
  {
    set t | t in inFlight && p(inFlight[t])
  }

  /** Every request that began has ended or is in flight, whatever kind of request is looked at. */
  ghost predicate Accounted(a: Agent, p: Attempt -> bool)
  {
    && (forall t :: t in a.inFlight ==> t < a.begun)
    && SumBy(BeganWith(p), a.log) == SumBy(EndedWith(p), a.log) + |Flying(a.inFlight, p)|
  }

  lemma FlyingBegun(inFlight: map<nat, Attempt>, ticket: nat, call: Attempt, p: Attempt -> bool)
    requires ticket !in inFlight
    ensures |Flying(inFlight[ticket := call], p)| == |Flying(inFlight, p)| + One(p(call))
  {
    var before, after := Flying(inFlight, p), Flying(inFlight[ticket := call], p);
    assert ticket !in before;
    assert after == if p(call) then before + {ticket} else before;
  }

  lemma FlyingEnded(inFlight: map<nat, Attempt>, ticket: nat, p: Attempt -> bool)
    requires ticket in inFlight
    ensures |Flying(inFlight, p)| == |Flying(inFlight - {ticket}, p)| + One(p(inFlight[ticket]))
  {
    var before, after := Flying(inFlight, p), Flying(inFlight - {ticket}, p);
    assert p(inFlight[ticket]) <==> ticket in before;
    assert after == before - {ticket};
  }

  lemma BeginAccounts(a: Agent, call: Attempt, second: int, delay: nat, a': Agent, p: Attempt -> bool)
    requires Accounted(a, p) && Next(a, Begin(call, second, delay), a')
    ensures Accounted(a', p)
  {
    hide Flying;
    var e := Began(call, second, delay);
    SumBySnoc(BeganWith(p), a.log, e);
    SumBySnoc(EndedWith(p), a.log, e);
    FlyingBegun(a.inFlight, a.begun, call, p);
  }

  lemma FinishAccounts(a: Agent, ticket: nat, exchange: Exchange, second: int, latency: nat, a': Agent,
                       p: Attempt -> bool)
    requires Accounted(a, p) && Next(a, Finish(ticket, exchange, second, latency), a')
    ensures Accounted(a', p)
  {
    hide Flying;
    var e := Outcome(a.inFlight[ticket], exchange, second, latency);
    SumBySnoc(BeganWith(p), a.log, e);
    SumBySnoc(EndedWith(p), a.log, e);
    FlyingEnded(a.inFlight, ticket, p);
  }

  lemma NextAccounts(a: Agent, action: Action, a': Agent, p: Attempt -> bool)
    requires Accounted(a, p) && Next(a, action, a')
    ensures Accounted(a', p)
  {
    match action
    case Begin(call, second, delay) => BeginAccounts(a, call, second, delay, a', p);
    case Finish(ticket, exchange, second, latency) => FinishAccounts(a, ticket, exchange, second, latency, a', p);
    case Other(entry) =>
      SumBySnoc(BeganWith(p), a.log, entry);
      SumBySnoc(EndedWith(p), a.log, entry);
      assert !entry.Outcome() && !entry.Began?;
      assert BeganWith(p)(entry) == 0 && EndedWith(p)(entry) == 0;
  }

  lemma {:induction false} AlwaysAccounted(trace: seq<Agent>, actions: seq<Action>, i: nat, p: Attempt -> bool)
    requires History(trace, actions) && i < |trace|
    ensures Accounted(trace[i], p)
  {
    if i == 0 {
      assert Flying(IDLE.inFlight, p) == {};
    } else {
      hide Next, Accounted;
      AlwaysAccounted(trace, actions, i - 1, p);
      assert StepAt(trace, actions, i - 1);
      NextAccounts(trace[i - 1], actions[i - 1], trace[i], p);
    }
  }

  // ----- one outcome each

  lemma {:induction false} TicketsGone(trace: seq<Agent>, actions: seq<Action>, i: nat, j: nat, ticket: nat)
    requires History(trace, actions) && i <= j < |trace| && ticket < trace[i].begun && ticket !in trace[i].inFlight
    ensures ticket < trace[j].begun && ticket !in trace[j].inFlight
    decreases j - i
  {
    hide Outcome;
    if i < j {
      TicketsGone(trace, actions, i, j - 1, ticket);
      assert StepAt(trace, actions, j - 1);
    }
  }

  /** No request ends twice. */
  lemma EndsAtMostOnce(trace: seq<Agent>, actions: seq<Action>, i: nat, j: nat)
    requires History(trace, actions) && i < j < |actions| && actions[i].Finish? && actions[j].Finish?
    ensures actions[i].ticket != actions[j].ticket
  {
    AlwaysAccounted(trace, actions, i, _ => true);
    assert StepAt(trace, actions, i) && StepAt(trace, actions, j);
    hide Accounted, Outcome;
    TicketsGone(trace, actions, i + 1, j, actions[i].ticket);
  }

  /** Every request that began and is no longer in flight has ended. */
  lemma {:induction false} EndsIfNotInFlight(trace: seq<Agent>, actions: seq<Action>, i: nat, ticket: nat)
    requires History(trace, actions) && i < |trace| && ticket < trace[i].begun && ticket !in trace[i].inFlight
    ensures exists k :: 0 <= k < i && actions[k].Finish? && actions[k].ticket == ticket
  {
    hide Outcome;
    assert i > 0;
    assert StepAt(trace, actions, i - 1);
    if ticket < trace[i - 1].begun && ticket !in trace[i - 1].inFlight {
      EndsIfNotInFlight(trace, actions, i - 1, ticket);
    } else {
      assert actions[i - 1].Finish? && actions[i - 1].ticket == ticket;
    }
  }

  // ----- the identities

  function Any(): Attempt -> bool { (call: Attempt) => true }
  function Named(name: string): Attempt -> bool { (call: Attempt) => call.scenario == name }

  lemma {:induction false} SumsAlike(f: Entry -> int, g: Entry -> int, log: seq<Entry>)
    requires forall e :: f(e) == g(e)
    ensures SumBy(f, log) == SumBy(g, log)
  {
    if log != [] { SumsAlike(f, g, log[1..]); }
  }

  lemma {:induction false} SumsAdd(f: Entry -> int, g: Entry -> int, h: Entry -> int, log: seq<Entry>)
    requires forall e :: h(e) == f(e) + g(e)
    ensures SumBy(h, log) == SumBy(f, log) + SumBy(g, log)
  {
    if log != [] { SumsAdd(f, g, h, log[1..]); }
  }

  function Plus(f: Entry -> int, g: Entry -> int): Entry -> int { (e: Entry) => f(e) + g(e) }

  lemma OutcomesSplit(log: seq<Entry>, config: RunConfig)
    ensures SumBy(BeganWith(Any()), log) == SumBy(LedgerCounter.Issued.Weight(config), log)
    ensures SumBy(EndedWith(Any()), log)
         == SumBy(LedgerCounter.Successes.Weight(config), log) + SumBy(LedgerCounter.HttpFailures.Weight(config), log)
            + SumBy(LedgerCounter.TransportErrors.Weight(config), log)
            + SumBy(LedgerCounter.Cancelled.Weight(config), log)
  {
    var s, h := LedgerCounter.Successes.Weight(config), LedgerCounter.HttpFailures.Weight(config);
    var t, c := LedgerCounter.TransportErrors.Weight(config), LedgerCounter.Cancelled.Weight(config);
    SumsAlike(BeganWith(Any()), LedgerCounter.Issued.Weight(config), log);
    SumsAdd(s, h, Plus(s, h), log);
    SumsAdd(t, c, Plus(t, c), log);
    forall e ensures EndedWith(Any())(e) == Plus(s, h)(e) + Plus(t, c)(e) {
      assert Plus(s, h)(e) == s(e) + h(e) && Plus(t, c)(e) == t(e) + c(e);
      assert EndedWith(Any())(e) == if e.Outcome() then One(Any()(e.call)) else 0;
    }
    SumsAdd(Plus(s, h), Plus(t, c), EndedWith(Any()), log);
  }

  /** At every moment, with any number of requests under way: issued = successes + HTTP failures + transport errors +
      cancelled + in flight. */
  lemma LifecycleConserved(trace: seq<Agent>, actions: seq<Action>, i: nat, config: RunConfig)
    requires History(trace, actions) && i < |trace|
    ensures var t := Replay(trace[i].log, config).totals;
            t.issued == t.successes + t.httpFailures + t.transportErrors + t.cancelled + |trace[i].inFlight|
  {
    hide Replay, History, BeganWith, EndedWith, SumBy;
    var a := trace[i];
    AlwaysAccounted(trace, actions, i, Any());
    assert Flying(a.inFlight, Any()) == a.inFlight.Keys;
    OutcomesSplit(a.log, config);
    CountersCount(a.log, config, LedgerCounter.Issued);
    CountersCount(a.log, config, LedgerCounter.Successes);
    CountersCount(a.log, config, LedgerCounter.HttpFailures);
    CountersCount(a.log, config, LedgerCounter.TransportErrors);
    CountersCount(a.log, config, LedgerCounter.Cancelled);
  }

  /** HTTP failures of one scenario, which its row counts both as completed and as failed. */
  function HttpFailuresOf(name: string): Entry -> int { (e: Entry) => One(e.HttpFailed? && e.call.scenario == name) }

  lemma ScenarioOutcomesSplit(log: seq<Entry>, name: string)
    ensures SumBy(BeganWith(Named(name)), log) == SumBy(ScenarioColumn.IssuedIn.Weight(name), log)
    ensures SumBy(EndedWith(Named(name)), log) + SumBy(HttpFailuresOf(name), log)
         == SumBy(ScenarioColumn.CompletedIn.Weight(name), log) + SumBy(ScenarioColumn.FailuresIn.Weight(name), log)
            + SumBy(ScenarioColumn.CancelledIn.Weight(name), log)
  {
    var d, f, c := ScenarioColumn.CompletedIn.Weight(name), ScenarioColumn.FailuresIn.Weight(name),
                   ScenarioColumn.CancelledIn.Weight(name);
    var ended, http := EndedWith(Named(name)), HttpFailuresOf(name);
    SumsAlike(BeganWith(Named(name)), ScenarioColumn.IssuedIn.Weight(name), log);
    SumsAdd(ended, http, Plus(ended, http), log);
    SumsAdd(d, f, Plus(d, f), log);
    forall e ensures Plus(ended, http)(e) == Plus(d, f)(e) + c(e) {
      assert Plus(ended, http)(e) == ended(e) + http(e) && Plus(d, f)(e) == d(e) + f(e);
      assert ended(e) == if e.Outcome() then One(Named(name)(e.call)) else 0;
    }
    SumsAdd(Plus(d, f), c, Plus(ended, http), log);
  }

  /** The same for each scenario: issued + HTTP failures = completed + failures + cancelled + in flight, an HTTP failure
      being both completed and failed. */
  lemma ScenarioConserved(trace: seq<Agent>, actions: seq<Action>, i: nat, config: RunConfig, name: string)
    requires History(trace, actions) && i < |trace| && name != ""
    ensures var a, r := trace[i], ScenarioRowOf(Replay(trace[i].log, config).scenarios, name);
            && r.issued + SumBy(HttpFailuresOf(name), a.log)
               == r.completed + r.failures + r.cancelled + |Flying(a.inFlight, Named(name))|
            && r.completed + r.cancelled + |Flying(a.inFlight, Named(name))| <= r.issued
  {
    var log := trace[i].log;
    AlwaysAccounted(trace, actions, i, Named(name));
    ScenarioOutcomesSplit(log, name);
    hide Replay;
    ScenariosCount(log, config, name, IssuedIn);
    ScenariosCount(log, config, name, CompletedIn);
    ScenariosCount(log, config, name, FailuresIn);
    ScenariosCount(log, config, name, CancelledIn);
    FewerHttpFailures(log, name);
  }

  lemma {:induction false} FewerHttpFailures(log: seq<Entry>, name: string)
    ensures 0 <= SumBy(HttpFailuresOf(name), log) <= SumBy(ScenarioColumn.FailuresIn.Weight(name), log)
  {
    if log != [] { FewerHttpFailures(log[1..], name); }
  }

  // ----- logs of agents that joined their workers

  /** A log at whose end all requests have ended, as when an agent has joined its workers. */
  ghost predicate Joined(log: seq<Entry>)
  {
    exists steps: seq<Agent>, actions: seq<Action> ::
      History(steps, actions) && steps[|steps| - 1].log == log && steps[|steps| - 1].inFlight == map[]
  }

  lemma JoinedHistory(log: seq<Entry>) returns (steps: seq<Agent>, actions: seq<Action>)
    requires Joined(log)
    ensures History(steps, actions) && steps[|steps| - 1].log == log && steps[|steps| - 1].inFlight == map[]
  {
    steps, actions :|
      History(steps, actions) && steps[|steps| - 1].log == log && steps[|steps| - 1].inFlight == map[];
  }

  lemma NothingJoins()
    ensures Joined([])
  {
    assert History([IDLE], []);
  }

  lemma HistorySnoc(steps: seq<Agent>, actions: seq<Action>, action: Action, a: Agent)
    requires History(steps, actions) && Next(steps[|steps| - 1], action, a)
    ensures History(steps + [a], actions + [action])
  {
    hide Next;
    var steps', actions' := steps + [a], actions + [action];
    forall i | 0 <= i < |actions'| ensures StepAt(steps', actions', i) {
      if i < |actions| {
        assert StepAt(steps, actions, i);
        assert steps'[i] == steps[i] && steps'[i + 1] == steps[i + 1] && actions'[i] == actions[i];
      }
    }
  }

  /** Whoever has joined the workers can make one more request, whatever becomes of it. */
  lemma OneRequestJoins(log: seq<Entry>, call: Attempt, second: int, delay: nat, exchange: Exchange, end: int,
                        latency: nat)
    requires Joined(log)
    ensures Joined(log + [Began(call, second, delay), Outcome(call, exchange, end, latency)])
  {
    var steps, actions := JoinedHistory(log);
    var a := steps[|steps| - 1];
    var b := Agent(log + [Began(call, second, delay)], a.begun + 1, map[a.begun := call]);
    var c := Agent(log + [Began(call, second, delay), Outcome(call, exchange, end, latency)], a.begun + 1, map[]);
    assert a.inFlight[a.begun := call] == b.inFlight && b.inFlight - {a.begun} == map[];
    assert Next(a, Begin(call, second, delay), b);
    assert b.log + [Outcome(b.inFlight[a.begun], exchange, end, latency)] == c.log;
    assert Next(b, Finish(a.begun, exchange, end, latency), c);
    hide History, Next;
    HistorySnoc(steps, actions, Begin(call, second, delay), b);
    HistorySnoc(steps + [b], actions + [Begin(call, second, delay)], Finish(a.begun, exchange, end, latency), c);
    assert (steps + [b] + [c])[|steps| + 1] == c;
  }
}
