/** From the requests of the agents to the stored result of a run: what the controller shows for a completed run, in
    every state it can reach, is what one process that made all the requests would have reported. */
module ProtocolMeasured {
  import opened Core
  import opened Folds
  import opened OrderStatistics
  import opened ShardMerge
  import opened MergeProperties
  import opened StoreState
  import opened Protocol
  import opened ProtocolTheorems
  import opened ProtocolResults
  import opened Ledgers
  import AgentResult
  import opened Distributed
  import opened DistributedRows
  import opened Decimation
  import Lifecycle = RequestLifecycle

  /** Every report that came in for run `r` is what the agent with that shard had to report; `agent` says which agent
      had which shard. */
  ghost predicate ReportedBy(w: World, r: nat, agent: nat -> AgentRun)
    requires r in w.store.runs
  {
    var config := w.store.runs[r].config;
    forall id :: InBlock(r, config.ShardCount(), id) && id in w.reports ==>
      SameLimits(agent(id).config, config) && w.reports[id] == agent(id).Report()
  }

  function LogOf(agent: nat -> AgentRun): nat -> seq<Entry> { (id: nat) => agent(id).log }

  /** All that the agents of run `r` recorded, shard after shard. */
  function AllLogs(r: nat, count: nat, agent: nat -> AgentRun): seq<Entry>
  {
    Flatten(Map(LogOf(agent), Block(r, count)))
  }

  lemma MergeOrderMembers(r: nat, count: nat, order: seq<nat>, id: nat)
    requires multiset(order) == multiset(Block(r, count)) && id in order
    ensures InBlock(r, count, id)
  {
    assert id in multiset(order);
    assert id in Block(r, count);
  }

  /** The agents in the order in which the controller merged their reports. */
  lemma MergedAgents(w: World, r: nat, agent: nat -> AgentRun) returns (order: seq<nat>, agents: seq<AgentRun>)
    requires Inv(w) && r in w.store.runs && w.store.runs[r].status.Completed? && ReportedBy(w, r, agent)
    ensures var config := w.store.runs[r].config;
            && w.store.runs[r].result == Merged(config, ReportsFrom(agents))
            && multiset(order) == multiset(Block(r, config.ShardCount())) && agents == Map(agent, order)
            && (forall k :: 0 <= k < |agents| ==> SameLimits(agents[k].config, config))
            && multiset(Flatten(LogsOf(agents))) == multiset(AllLogs(r, config.ShardCount(), agent))
  {
    hide Inv, Merged, AgentRun.Report;
    MergeOrderIsBlock(w, r);
    var config := w.store.runs[r].config;
    var block: seq<nat> := Block(r, config.ShardCount());
    order := w.merges[r];
    agents := Map(agent, order);
    forall k | 0 <= k < |order|
      ensures SameLimits(agents[k].config, config) && Map(ResultOf(w.reports), order)[k] == agents[k].Report()
    {
      MergeOrderMembers(r, config.ShardCount(), order, order[k]);
      ShardDone(w, r, order[k] - r - 1);
    }
    assert Map(ResultOf(w.reports), order) == ReportsFrom(agents);
    assert Map(LogOf(agent), order) == LogsOf(agents);
    MapPermutation(LogOf(agent), order, block);
    FlattenPermutation(Map(LogOf(agent), order), Map(LogOf(agent), block));
  }

  /** However many agents took part, however their requests, reports and everything else interleaved, and in whatever
      order the controller went over the shards: as long as the measurements fit into the sample sets, the counters,
      goodput and completion rates and latency distributions stored for a completed run are those of a single process
      that made all the requests. */
  lemma CompletedRunIsSingleProcess(trace: seq<World>, events: seq<Event>, i: nat, r: nat, agent: nat -> AgentRun,
                                    single: AgentRun, metric: Metric, code: int)
    requires History(trace, events) && i < |trace|
    requires r in trace[i].store.runs && trace[i].store.runs[r].status.Completed? && ReportedBy(trace[i], r, agent)
    requires multiset(single.log) == multiset(AllLogs(r, trace[i].store.runs[r].config.ShardCount(), agent))
    requires SameLimits(single.config, trace[i].store.runs[r].config) && Fits(single.log)
    ensures Agrees(trace[i].store.runs[r].result, single.Report(), metric, code)
  {
    hide Inv, History, Merged, Fits, ReportedBy, SameLimits, Agrees, AgentRun.Report;
    Reachable(trace, events, i);
    var order, agents := MergedAgents(trace[i], r, agent);
    DistributedIsSingleProcess(trace[i].store.runs[r].config, agents, single, metric, code);
  }

  /** And so are its tables: one row per scenario with that process's figures, and, when everything happened in the time
      the timeline covers, its seconds with their counters. */
  lemma CompletedTablesAreSingleProcess(trace: seq<World>, events: seq<Event>, i: nat, r: nat, agent: nat -> AgentRun,
                                        single: AgentRun)
    requires History(trace, events) && i < |trace|
    requires r in trace[i].store.runs && trace[i].store.runs[r].status.Completed? && ReportedBy(trace[i], r, agent)
    requires multiset(single.log) == multiset(AllLogs(r, trace[i].store.runs[r].config.ShardCount(), agent))
    requires SameLimits(single.config, trace[i].store.runs[r].config)
    ensures var stored, own := trace[i].store.runs[r].result, single.Report();
            && (Fits(single.log) ==> SameScenarios(stored.scenarios, own.scenarios))
            && (AgentResult.InTime(single.log) ==> Map(PlainRow(), stored.timeline) == Map(PlainRow(), own.timeline))
            && (AgentResult.InTime(single.log) ==> P95sCautious(stored.timeline, own.timeline, single.log))
  {
    hide Inv, History, Merged, Fits, ReportedBy, SameLimits, AgentResult.InTime, AgentRun.Report, SameScenarios;
    hide P95sCautious;
    Reachable(trace, events, i);
    var order, agents := MergedAgents(trace[i], r, agent);
    TablesAreSingleProcess(trace[i].store.runs[r].config, agents, single);
  }

  lemma OneOfBlock(order: seq<nat>, r: nat, count: nat, id: nat)
    requires multiset(order) == multiset(Block(r, count)) && InBlock(r, count, id)
    ensures id in order
  {
    assert Block(r, count)[id - r - 1] == id;
    assert id in multiset(Block(r, count));
  }

  /** Whether all of this is so can be read off the stored result: its samples are marked as thinned if and only if some
      agent of the run measured more than its sample sets hold, and unless they are, every stored distribution is that
      of all steady measurements of the whole run. */
  lemma StoredFlagTellsExactness(trace: seq<World>, events: seq<Event>, i: nat, r: nat, agent: nat -> AgentRun,
                                 metric: Metric)
    requires History(trace, events) && i < |trace|
    requires r in trace[i].store.runs && trace[i].store.runs[r].status.Completed? && ReportedBy(trace[i], r, agent)
    ensures var stored, count := trace[i].store.runs[r].result, trace[i].store.runs[r].config.ShardCount();
            && (stored.samplesDecimated <==> exists id :: InBlock(r, count, id) && !Fits(agent(id).log))
            && (!stored.samplesDecimated ==>
                  metric.Of(stored) == DistributionOf(MeasuredBy(metric, AllLogs(r, count, agent))))
  {
    hide Inv, History, Merged, Fits, ReportedBy, SameLimits, AgentRun.Report, InBlock, DistributionOf, MeasuredBy;
    Reachable(trace, events, i);
    var config := trace[i].store.runs[r].config;
    var order, agents := MergedAgents(trace[i], r, agent);
    ReportsOfAgents(config, agents);
    FlagTellsExactness(config, ReportsFrom(agents), LogsOf(agents), metric);
    forall k | 0 <= k < |order| ensures InBlock(r, config.ShardCount(), order[k]) {
      MergeOrderMembers(r, config.ShardCount(), order, order[k]);
    }
    forall id | InBlock(r, config.ShardCount(), id) && !Fits(agent(id).log)
      ensures exists k :: 0 <= k < |agents| && !Fits(LogsOf(agents)[k])
    {
      OneOfBlock(order, r, config.ShardCount(), id);
      var k :| 0 <= k < |order| && order[k] == id;
      assert LogsOf(agents)[k] == agent(id).log;
    }
    MeasuredPermutation(metric, AllLogs(r, config.ShardCount(), agent), Flatten(LogsOf(agents)));
    DistributionPermutation(MeasuredBy(metric, AllLogs(r, config.ShardCount(), agent)),
                            MeasuredBy(metric, Flatten(LogsOf(agents))));
  }

  // ----- flags that follow the configuration

  /** Every report that came in for run `r` is from an agent with the configuration it was handed. */
  ghost predicate ServedBy(w: World, r: nat, agent: nat -> AgentRun)
    requires r in w.store.runs
  {
    forall id :: InBlock(r, w.store.runs[r].config.ShardCount(), id) && id in w.reports ==>
      id in w.handed && agent(id).config == w.handed[id].run.config && w.reports[id] == agent(id).Report()
  }

  lemma HandedConfig(config: RunConfig, runId: nat, id: nat, index: nat)
    ensures var own := ShardConfig(config, runId, id, index);
            SameLimits(own, config) && own.ignoreEos == config.ignoreEos
            && own.accumulateContext == config.accumulateContext
  {
    hide ShareOf;
  }

  lemma ServedAgent(w: World, r: nat, agent: nat -> AgentRun, id: nat)
    requires Inv(w) && r in w.store.runs && w.store.runs[r].status.Completed? && ServedBy(w, r, agent)
    requires InBlock(r, w.store.runs[r].config.ShardCount(), id)
    ensures id in w.reports && w.reports[id] == agent(id).Report()
    ensures var own, config := agent(id).config, w.store.runs[r].config;
            SameLimits(own, config) && own.ignoreEos == config.ignoreEos
            && own.accumulateContext == config.accumulateContext
  {
    hide Inv, AgentRun.Report, SameLimits, ShardConfig;
    ShardDone(w, r, id - r - 1);
    HandedConfig(w.store.runs[r].config, w.handed[id].run.id, id, w.store.shards[id].index);
  }

  /** The two flags the merge takes from the last shard are nevertheless those of the run's configuration, in whatever
      order the shards were visited, as long as every agent ran what it was handed. */
  lemma FlagsAreConfigured(trace: seq<World>, events: seq<Event>, i: nat, r: nat, agent: nat -> AgentRun)
    requires History(trace, events) && i < |trace|
    requires r in trace[i].store.runs && trace[i].store.runs[r].status.Completed? && ServedBy(trace[i], r, agent)
    ensures ReportedBy(trace[i], r, agent)
    ensures var run := trace[i].store.runs[r];
            && run.result.outputLengthPinned == run.config.ignoreEos
            && run.result.contextAccumulated == run.config.accumulateContext
    ensures r in trace[i].merges
    ensures var config, reports := trace[i].store.runs[r].config, Map(ResultOf(trace[i].reports), trace[i].merges[r]);
            FlagSettled(config, reports, PinnedFlag) && FlagSettled(config, reports, ContextFlag)
  {
    hide Inv, History, Merged, ServedBy, SameLimits, AgentRun.Report, InBlock;
    var w := trace[i];
    Reachable(trace, events, i);
    MergeOrderIsBlock(w, r);
    var config, order := w.store.runs[r].config, w.merges[r];
    var reports := Map(ResultOf(w.reports), order);
    forall id | InBlock(r, config.ShardCount(), id) && id in w.reports
      ensures SameLimits(agent(id).config, config) && w.reports[id] == agent(id).Report()
    {
      ServedAgent(w, r, agent, id);
    }
    forall k | 0 <= k < |order|
      ensures PinnedFlag(reports[k]) == config.ignoreEos && ContextFlag(reports[k]) == config.accumulateContext
    {
      MergeOrderMembers(r, config.ShardCount(), order, order[k]);
      ServedAgent(w, r, agent, order[k]);
      FlagsOfReport(agent(order[k]));
    }
    FirstOfBlock(r, config);
    OneOfBlock(order, r, config.ShardCount(), r + 1);
    FlagsOfLast(config, reports);
    FlagsSettledIfAgreed(config, reports);
  }

  lemma FirstOfBlock(r: nat, config: RunConfig)
    ensures InBlock(r, config.ShardCount(), r + 1)
  {
  }

  lemma FlagsOfReport(agent: AgentRun)
    ensures PinnedFlag(agent.Report()) == agent.config.ignoreEos
    ensures ContextFlag(agent.Report()) == agent.config.accumulateContext
  {
    hide Replay, DistributionOf, AgentResult.Sorted, AgentResult.ScenarioResults;
  }

  // ----- request accounting

  lemma JoinedBalances(agent: AgentRun)
    requires Lifecycle.Joined(agent.log)
    ensures Balanced(agent.Report().counts)
  {
    var steps, actions := Lifecycle.JoinedHistory(agent.log);
    hide Lifecycle.History, AgentResult.ResultOf, Replay;
    AgentResult.ResultConserves(steps, actions, |actions|, agent.config, agent.now);
  }

  /** The request accounting rule holds of the stored result of every completed run whose agents joined their workers:
      issued = successes + HTTP failures + transport errors + cancelled, over all of the run's requests. */
  lemma CompletedRunBalances(trace: seq<World>, events: seq<Event>, i: nat, r: nat, agent: nat -> AgentRun)
    requires History(trace, events) && i < |trace|
    requires r in trace[i].store.runs && trace[i].store.runs[r].status.Completed? && ReportedBy(trace[i], r, agent)
    requires forall id :: InBlock(r, trace[i].store.runs[r].config.ShardCount(), id) ==> Lifecycle.Joined(agent(id).log)
    ensures Balanced(trace[i].store.runs[r].result.counts)
  {
    hide Inv, History, Merged, Lifecycle.Joined, AgentRun.Report;
    var w := trace[i];
    Reachable(trace, events, i);
    MergeOrderIsBlock(w, r);
    var order: seq<nat> := w.merges[r];
    var merged := Map(ResultOf(w.reports), order);
    forall k | 0 <= k < |order| ensures Balanced(merged[k].counts) {
      MergeOrderMembers(r, w.store.runs[r].config.ShardCount(), order, order[k]);
      ShardDone(w, r, order[k] - r - 1);
      JoinedBalances(agent(order[k]));
    }
    MergedBalance(w.store.runs[r].config, merged);
  }
}
