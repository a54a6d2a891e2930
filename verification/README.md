# Load Observatory: a verified model

Load Observatory tests how much load a service can take. A controller keeps targets, runs, shards and capacity searches in
one lock-protected store; agents claim shards of runs, generate the load, measure it and report back; the controller merges
the reports of a run and, for a search, decides from the merged result whether to climb to the next load. This project models
these four parts in Dafny and proves what the program promises about them.

- **Store** (`store_state.dfy`, `store.dfy`). `MemoryStore` is a class over the same maps as the original, and each of its
  methods is proved to do to the store what a function of `StoreState` says. Where the code ranges over a Go map the order is
  arbitrary.
- **Protocol** (`protocol*.dfy`). Operators and agents call these operations in any order. The report that completes a run and
  the step of its search are two operations, with any others allowed in between. An agent is assumed to report only shards it
  was handed, each once. One invariant, kept by every operation, gives theorems about whole histories: claims, final statuses,
  searches, loads, nonces and results.
- **Merge** (`shard_merge.dfy`, `merge_properties.dfy`, `merge_order.dfy`, `scenario_merge.dfy`, `timeline_merge.dfy`,
  `order_statistics.dfy`). Conservation, independence of map order and where it ends, exact pooled percentiles, and a fallback
  that never looks better than the truth.
- **Sweep** (`sweep.dfy`, `sweep_properties.dfy`). The ladder, the step function and the knee; early stopping is exact.
- **Agent** (`sample_set.dfy`, `ledger.dfy`, `measurements.dfy`, `ledger_properties.dfy`, `request_lifecycle.dfy`,
  `agent_result.dfy`, `warm_up.dfy`, `workload.dfy`, `trace_replay.dfy`, `admission.dfy`). The decimating
  sample buffer, the measurements object as a log of entries, requests in flight, the reported result, the guardrail and the
  warm-up, the workload mix, trace replay and admission.
- **End to end** (`distributed.dfy`, `decimation.dfy`, `distributed_rows.dfy`, `protocol_measured.dfy`). The counters,
  distributions, scenarios and seconds stored for a completed run are those one process would have reported that made all the
  agents' requests itself.

Floating-point numbers are reals; latencies, tokens and counters are natural numbers; IDs are numbers, and strings where their
printed form matters. Clock readings, hashes and the ends of other requests are arguments.

`dafny verify dfyconfig.toml` checks everything.

## What the proofs turned up

- A search can be stranded: it stays running although nothing is outstanding (`StrandedMeansNothingOutstanding`). Exactly two
  operations do this: stopping the active run the search waits for, and a scan for work that comes to a queued shard of that
  run after its target was deleted (`StrandsExactly`); only cancelling the search ends it (`StrandedExactly`). Both are
  reachable: by stopping the first run of any new search (`StoppedRunStrands`), and by deleting the target between the report
  that completes a rung and the step that queues the next one, when no run of the search is active and the deletion is
  allowed (`DeletedTargetStrands`).
- The shares of a load add up to it if and only if the load is not negative or divides evenly (`SharesAddUp`).
- Without samples the merged distribution depends on the order in which a Go map yields the shards as soon as three of them
  measured something (`FallbackMeanDependsOnOrder`, `FallbackSettledUpToTwo`), and its minimum is 0 as soon as a shard that
  counts has no values of a metric (`FallbackErrsHigh`). The merged generator delay depends on the order as well, even for two
  shards when one of them finished nothing (`DelaySettledUpToTwo`).
- The merged request and output rates are not those of a single process unless it took exactly the configured duration
  (`RatesAgreeOnTime`); after an overtime the merged one is higher (`OvertimeRaisesRate`, `OvertimeHappens`).
- A second's completed requests include transport errors while the run's do not, so that column adds up to the total instead
  (`TimelineAgrees`).
- A merged result drops the backoff counters of its shards (`BackoffsDropped`), and takes the flags for pinned output length
  and accumulated context from the shard that happens to come last (`FlagsSettledIfAgreed`), which is harmless as long as
  every agent runs what it was handed (`FlagsAreConfigured`).
- A guardrail that fires during the warm-up cancels the run for good, but the reset after the warm-up forgets that it did: the
  run makes no request and its report does not say why (`StopIsReported`, `WarmUpSilencesRun`).

## Model

| member | source | states |
|---|---|---|
| Store.MemoryStore.CreateTarget | internal/store/store.go:393-400 | A target gets the next number and is filed under it; nothing else changes. |
| Store.MemoryStore.DeleteTarget | internal/store/store.go:419-432 | The target goes unless it is unknown or a queued or running run uses it, in whatever order the runs are visited. |
| Store.MemoryStore.QueueShards | internal/store/store.go:445-455 | The loop files exactly one queued shard for each of the run's numbers, indexed from 0. |
| Store.MemoryStore.CreateRun | internal/store/store.go:434-443 | The whole new store after queueing a run with its shards. |
| Store.MemoryStore.QueueSearchRun | internal/store/store.go:300-314 | The whole new store after queueing a rung of a search: run, shards, back reference and the search's list. |
| Store.MemoryStore.CreateSearch | internal/store/store.go:286-298 | The whole new store after planning a sweep and queueing its first rung. |
| Store.MemoryStore.CancelRun | internal/store/store.go:349-372 | Cancels an active run and its queued shards and leaves ended runs and all other shards alone, in every map order. |
| Store.MemoryStore.CancelSearch | internal/store/store.go:333-347 | Marks the search, even a completed one, and cancels each of its runs. |
| Store.MemoryStore.ClaimRun | internal/store/store.go:478-530 | One scan over the shards in an arbitrary order: it ends at the first shard that can be handed out, or has passed every shard; what it cancelled on the way is stated exactly. |
| Store.MemoryStore.HandOut | internal/store/store.go:497-527 | The shard and its run become running, and the assignment carries the shard's share of the load and its own workload ID. |
| Store.MemoryStore.CompleteShard | internal/store/store.go:548-702 | Files the report; the last one merges the reports of all the run's shards, in the order the map yields them, unless the run was cancelled. |
| Store.MemoryStore.ClearShardSamples | internal/store/store.go:704-717 | Drops the raw samples of the run's shards and touches no other report. |
| Store.MemoryStore.AdvanceSearch | internal/store/store.go:374-391 | Applies the sweep's decision to the stored search and queues the next rung if there is one. |
| ProtocolSearches.NextKeepsInv | internal/store/store.go:286-391 | Every operation of the store, with every argument and every map order, keeps the invariant that ties targets, runs, shards, reports and searches together. |
| ProtocolTheorems.Reachable | internal/store/store.go:286-702 | The invariant holds after every history of operations from the empty store. |
| ProtocolTheorems.HistoryKeeps | internal/store/store.go:349-391 | Over any stretch of history runs keep their configuration, ended runs keep everything, assignments stay, and cancelled searches stay cancelled with the same runs. |
| ProtocolTheorems.EndedRunsAreFinal | internal/store/store.go:355-372 | A completed or cancelled run never changes again, neither its status nor its result. |
| ProtocolTheorems.ClaimIsSafe | internal/store/store.go:478-530 | What is handed out is a shard nobody has, of a run that was queued or running, on a target that exists. |
| ProtocolTheorems.HandedOutOnce | internal/store/store.go:497-499 | Two claims in one history never hand out the same shard. |
| ProtocolTheorems.NothingLeftQueued | internal/store/store.go:478-530 | When a claim returns nothing, no shard is left queued. |
| ProtocolScans.ClaimsWhenPossible | internal/store/store.go:478-530 | Whatever order the scan takes, a claim returns a shard if and only if there is a queued shard of an active run on a known target. |
| ProtocolScans.ScanCancels | internal/store/store.go:483-496 | A scan cancels a run if and only if the run is active, its target is gone and the scan comes to one of its queued shards. |
| ProtocolTheorems.CompletesWithLastReport | internal/store/store.go:556-565 | A report completes its run if and only if it is the last one missing and the run was not cancelled; until then no run changes. |
| ProtocolResults.SearchInEveryState | internal/store/store.go:286-391 | In every interleaving a search's runs, steps and ladder match index by index; only its last run can be queued or running; while it runs it has one run more than steps, once finished as many. |
| ProtocolResults.CancelledForGood | internal/store/store.go:333-347 | After CancelSearch none of its runs is ever queued, running or handed out again, whatever reports and advances follow. |
| ProtocolResults.SharesAddUp | internal/store/store.go:511-526 | The shares of a load add up to it if and only if the load is not negative or divides evenly; two shares differ by at most one. |
| ProtocolResults.LoadIsConserved | internal/store/store.go:505-527 | For a completed run the loads in the assignments that were handed out add up to the load in the stored run, which stays unsplit. |
| ProtocolResults.NoncesNeverRepeat | internal/agent/runner.go:800-804 | No two varied requests of any two assignments ever made start with the same text, nor carry the same query parameters, whatever the hash and the prompts. |
| ProtocolResults.MergeOrderIsBlock | internal/store/store.go:575-579 | The merge of a completed run visited each of its shards exactly once. |
| ProtocolResults.ResultIsMergeOfReports | internal/store/store.go:548-702 | The stored result of a completed run is the merge of one report per shard; each counter is their sum, and neither the settled fields nor the stability verdict depend on the visiting order. |
| ProtocolMeasured.CompletedRunIsSingleProcess | README.md:45 | From the agents' logs to the stored run, over all interleavings: the counters, the goodput and completion rates and all five latency distributions of a completed run are those of one process that made all the requests, as long as the samples fit. |
| ProtocolMeasured.CompletedTablesAreSingleProcess | README.md:45 | Likewise its tables: the scenario rows are that process's, in every counter, the completion rate and both latencies, as long as the samples fit; and so are the seconds with their counters, as long as everything happens within the time the timeline covers; no P95 of a second in which at most 1000 requests finished is too low. |
| ProtocolMeasured.StoredFlagTellsExactness | README.md:45 | The stored samples are marked as thinned if and only if some agent measured more than its own sample sets hold; and unless they are, each stored distribution is that of all steady measurements of the run, however many these are together. |
| ProtocolMeasured.FlagsAreConfigured | internal/store/store.go:598-599 | When every agent ran what it was handed, the two copied flags of a completed run are those of its configuration, in every visiting order. |
| ProtocolMeasured.CompletedRunBalances | README.md:20 | In every completed run whose agents joined their workers the stored counters obey issued = successes + HTTP failures + transport errors + cancelled. |
| ProtocolStranding.StrandedMeansNothingOutstanding | internal/store/store.go:374-391 | A running search is stranded, that is, its last run was cancelled, if and only if none of its runs is queued, running or waiting for the search's step. |
| ProtocolStranding.RunCancelledExactly | internal/store/store.go:349-372 | An operation cancels a run if and only if it stops that active run, or its search, or is a scan that comes to a queued shard of it after its target was deleted. |
| ProtocolStranding.StrandsExactly | internal/store/store.go:374-391 | After any operation a search is stranded if and only if it was and is not being cancelled, or the operation stops the active run it waits for, or is a scan that comes to a queued shard of that run after its target was deleted. |
| ProtocolStranding.StrandedExactly | internal/store/store.go:374-391 | In every history a search is stranded if and only if an earlier operation was one of those two and the search was not cancelled since. |
| ProtocolStranded.StoppedRunStrands | internal/store/store.go:349-372 | For every plan, the two operations that do it: create the search, stop its first run. |
| ProtocolStranded.DeletedTargetStrands | internal/store/store.go:419-432 | Seven operations in which nobody stops anything: the target is deleted between the report that completes the first rung and the search's step, the step queues a rung on it, and the next scan strands the search. |
| Names.NonceDetermines | internal/agent/runner.go:800-804 | The printed nonce in front of a prompt determines run, shard, sequence number and the rest of the prompt. |
| Names.QueryDetermines | internal/agent/runner.go:610-617 | So do the query parameters that replace it on a web target. |
| Names.DecimalInjective | internal/agent/runner.go:803 | Different numbers print differently. |
| ShardMerge.MergeResults | internal/store/store.go:566-694 | The pass over the shards, with its maps of seconds, status codes and scenarios, computes the merge. |
| MergeProperties.MergingConserves | internal/store/store.go:575-654 | Every counter and every status count of a merged result is the sum over the shards. |
| MergeProperties.MergedBalance | internal/store/store.go:580-590 | The lifecycle identity carries over from the shards to the merged result. |
| MergeProperties.MergedGoodput | internal/store/store.go:646-650 | Merged goodput is the SLO-meeting requests of all shards over all requests that finished. |
| MergeProperties.PooledDistributionIsExact | internal/store/store.go:659-666 | As soon as one shard sends samples, each merged distribution is the distribution of all samples pooled. |
| MergeProperties.PooledIgnoresOrder | internal/store/store.go:659-666 | A pooled distribution depends on the multiset of the shards, not on their order. |
| MergeProperties.MergingIgnoresOrder | internal/store/store.go:575-694 | Map order shows in nothing but the fallback's mean, the generator delay, the guardrail message, the lists of errors and scenarios, and two copied flags. |
| MergeProperties.VerdictIgnoresOrder | internal/core/search.go:43-66 | The stability verdict on a merged run does not depend on the order of its shards. |
| MergeProperties.VerdictOnMerged | internal/core/search.go:31-66 | A merged run is stable if and only if something finished, enough completed, few enough failed, at least 95 percent of all the shards' pooled latencies and first-token times are within their limits, and the output is fast enough. |
| MergeProperties.MergedFlags | internal/store/store.go:592-604 | Steady and drain windows are the longest of the shards, and the stop, arrival and decimation flags are set exactly when some shard set them. |
| MergeProperties.FallbackErrsHigh | internal/store/store.go:634-645 | Without samples, for shards of any weight, with values or without: the maximum is exact and no percentile too low, compared with the pooled values; the minimum is exact if and only if it is 0 anyway or every shard that counts has values; and where the weights are the numbers of values, the mean is not too high. |
| MergeProperties.FlagsSettledIfAgreed | internal/store/store.go:598-599 | The flags for pinned output length and accumulated context are the same for every order of the shards if and only if all shards agree on them. |
| MergeProperties.BackoffsDropped | internal/store/store.go:580-654 | A merged result has no backoffs, which is their sum if and only if no shard had any. |
| MergeOrder.FallbackMeanDependsOnOrder | internal/store/store.go:797-809 | For each metric and any number of shards from three on, a run without samples whose merged mean differs between two orders. |
| MergeOrder.FallbackSettledUpToTwo | internal/store/store.go:797-809 | Merged distributions without samples are the same in every order, for any reports, if and only if at most two shards measured something. |
| MergeOrder.DelaySettledUpToTwo | internal/store/store.go:797-809 | The merged generator delay is the same in every order, for any reports, if and only if there is at most one shard; for shards on each of which something finished, if and only if there are at most two. |
| ScenarioMerge.MergedScenarios | internal/store/store.go:773-786 | One row per scenario any shard reported; its counters are sums over the shards, and each latency is exact over the pooled samples of that scenario, or without any the merge of the shards' own, weighted by what completed. |
| TimelineMerge.MergedTimelineSums | internal/store/store.go:757-795 | Merged seconds strictly increase and are those some shard reported; each counter of a row is the sum over that second, and every column keeps its total. |
| TimelineMerge.MergedTimelineWorst | internal/store/store.go:757-771 | The P95 of a merged row is the highest P95 of its second. |
| TimelineMerge.MergedTimelineIgnoresOrder | internal/store/store.go:618-620 | The merged timeline does not depend on the order of the rows. |
| TimelineMerge.SortedTimeline | internal/store/store.go:788-795 | Whatever order the map yields, sorting by second gives the one ascending list of its rows. |
| OrderStatistics.PercentileIsLeastCover | internal/store/store.go:751-753 | The nearest-rank percentile is a sample, and the least number with at least that percentage of the samples at or below it. |
| OrderStatistics.Rank | internal/store/store.go:752 | The index formula picks the rank that separates covering from not covering. |
| OrderStatistics.DistributionPermutation | internal/store/store.go:731-749 | A distribution depends only on the multiset of values. |
| OrderStatistics.DistributionExtremes | internal/store/store.go:731-749 | Minimum and maximum are values, and bound all values. |
| OrderStatistics.DistributionMean | internal/store/store.go:738-743 | The mean is the sum over the count, rounded down. |
| OrderStatistics.DistributionPercentiles | internal/store/store.go:744-746 | P50, P95 and P99 are values, and least covers of their percentages. |
| OrderStatistics.Distribute | internal/agent/runner.go:1263-1283 | The agent's loop computes the same distribution as the controller's. |
| OrderStatistics.FallbackNeverUnderReports | internal/store/store.go:797-809 | Folding the shards' distributions, weighted by their sizes, never under-reports the pooled values, for any split into shards. |
| Sweep.SweepLadder | internal/core/search.go:104-125 | The loop plans the ladder. |
| Sweep.LadderShape | internal/core/search.go:104-125 | A ladder starts at the start load, doubles, ends exactly at the maximum, strictly increases and has at most 13 rungs. |
| Sweep.KneeLoad | internal/core/search.go:230-241 | The loop finds the last load before the first failure of the sorted curve. |
| Sweep.KneeIsHighestHeldLoad | internal/core/search.go:227-241 | The knee is the highest measured load with everything at or below it stable, and 0 when there is none. |
| Sweep.SearchRecord.RecordRung | internal/core/search.go:133-145 | The finished rung goes on the curve, and the stable and failed loads follow. |
| Sweep.SearchRecord.AdvanceSearch | internal/core/search.go:132-168 | The updates through the pointer make the decision and return the next load, if any. |
| Sweep.SearchRecord.FinishSearch | internal/core/search.go:204-225 | The search is completed with the knee and its provisioning share. |
| Sweep.ConsecutiveUnstableTail | internal/core/search.go:191-200 | The backward loop counts the trailing failures. |
| SweepProperties.PlannedSweepIsLive | internal/store/store.go:291-294 | A newly created search is a live sweep. |
| SweepProperties.AdvanceClimbs | internal/core/search.go:132-168 | A finished rung adds one step and leads to the next rung of a live sweep, or ends it because the start load failed, two rungs failed in a row, or the ladder is done. |
| SweepProperties.FinishedBounds | internal/core/search.go:204-225 | In a finished sweep the knee is at most the stable load and below the failed load, and the provisioned load lies between 1 and the knee. |
| SweepProperties.DriveMeasuresPrefix | internal/core/search.go:132-168 | Every sweep ends, within 13 runs, having measured a prefix of its ladder. |
| SweepProperties.EarlyStoppingIsExact | internal/core/search.go:147-167 | For every outcome of every rung, the sweep that stops early recommends the knee of measuring the whole ladder. |
| SampleSets.SampleBuffer.Append | internal/agent/runner.go:55-73 | One more value in the buffer that is compacted in place. |
| SampleSets.SampleBuffer.Compact | internal/agent/runner.go:65-71 | Compacting in place keeps every second value and doubles the stride. |
| SampleSets.SampleBuffer.AppendAll | internal/agent/runner.go:75-79 | Adding a list keeps the buffer the thinned rest of everything added. |
| SampleSets.AddAllIsThinned | internal/agent/runner.go:55-73 | After any values, for any capacity, the set holds exactly the closed form. |
| SampleSets.ThinnedValues | internal/agent/runner.go:59-63 | Entry i is value number (i + 1) * stride of all that were added. |
| SampleSets.ThinnedBounds | internal/agent/runner.go:64-72 | The length is seen / stride and below the capacity, the stride is a power of two, and once values were dropped at least half the capacity stays used. |
| SampleSets.UndecimatedKeepsAll | internal/agent/runner.go:55-73 | Below the capacity nothing is dropped. |
| Measurement.Measurements.Reset | internal/agent/runner.go:935-965 | Forgets everything the warm-up recorded, but does not take back that the run was cancelled. |
| Measurement.Measurements.BeginAttempt | internal/agent/runner.go:970-989 | A request is counted in the run, its second and its scenario, and is steady by when it was due. |
| Measurement.Measurements.RecordSuccess | internal/agent/runner.go:1001-1039 | The whole new ledger after a success, including the guardrail. |
| Measurement.Measurements.RecordHTTPFailure | internal/agent/runner.go:1118-1131 | The whole new ledger after an HTTP failure. |
| Measurement.Measurements.RecordTransportError | internal/agent/runner.go:1106-1116 | The whole new ledger after a transport error. |
| Measurement.Measurements.RecordCancelled | internal/agent/runner.go:1096-1104 | The whole new ledger after a cancelled request. |
| Measurement.Measurements.RecordAborted | internal/agent/runner.go:1088-1094 | A request ended by the run itself is cancelled, any other failed. |
| Measurement.Measurements.RecordTimeline | internal/agent/runner.go:1163-1184 | The row of the second, if it finds room, counts the outcome and keeps its latency. |
| Measurement.Measurements.SampleGauges | internal/agent/runner.go:916-926 | The row of the second, if it finds room, keeps the highest gauges read; nothing else changes. |
| Measurement.Measurements.RecordDropped | internal/agent/runner.go:1075 | One more dropped arrival, and nothing else. |
| Measurement.Measurements.StartSession | internal/agent/runner.go:1076 | One more session, and nothing else. |
| Measurement.Measurements.CompleteSession | internal/agent/runner.go:1077-1083 | One more completed session if it was completed, and nothing else. |
| Measurement.Measurements.StopIfViolated | internal/agent/runner.go:1041-1065 | The guardrail fires on the first broken limit once ten steady samples are there, and then cancels the run. |
| LedgerProperties.CountersCount | internal/agent/runner.go:1001-1131 | Every counter is the number, or total, of what its name says over the whole log. |
| LedgerProperties.SamplesAreThinned | internal/agent/runner.go:1006-1014 | Each sample set is the evenly thinned rest of all steady measurements of its kind, and the generator delays of all requests. |
| LedgerProperties.ScenariosCount | internal/agent/runner.go:991-999 | Scenarios are listed once each, exactly those that had requests, and each column counts their own requests. |
| LedgerProperties.TimelineCounts | internal/agent/runner.go:1151-1184 | Never more rows than the cap; a row counts exactly what happened in its second; a second without a row had nothing, or found the timeline full. |
| LedgerProperties.RowKeepsLatencies | internal/agent/runner.go:1181-1183 | A row keeps min(completed, 1000) latencies, the first ones of its second. |
| LedgerProperties.GaugesArePeaks | internal/agent/runner.go:916-926 | The active, waiting and target gauges of a row are the highest readings of its second. |
| LedgerProperties.ErrorsAreTheFirst | internal/agent/runner.go:1133-1141 | The messages kept are the first 20 failures, each cut to 180 characters. |
| LedgerProperties.ScenarioSamplesAreThinned | internal/agent/runner.go:1026-1035 | A scenario's samples are the evenly thinned rest of its own steady measurements. |
| LedgerProperties.GuardrailStops | internal/agent/runner.go:1041-1065 | The guardrail has stopped the run if and only if some success broke a limit, names the first limit broken, and never takes it back. |
| WarmUp.StopIsReported | internal/agent/runner.go:253-303 | The report of a run says that a guardrail stopped it if and only if the guardrail fired after the warm-up; when it fires during the warm-up, the run is cancelled all the same, and the report shows neither a request nor a guardrail. |
| WarmUp.WarmUpSilencesRun | internal/agent/runner.go:1056-1063 | For every run with a latency limit, ten warm-up requests above that limit do this. |
| RequestLifecycle.Outcome | internal/agent/runner.go:618-671 | Which outcome each way of ending a request leads to: success exactly for a good status, unless it is a model's and its body broke off; HTTP failure exactly for a bad status; cancelled exactly when there was no response, or a broken body, because the run was stopping. Other targets' bodies are discarded, read or not. |
| RequestLifecycle.FinishRequest | internal/agent/runner.go:618-671 | Every path of a request after it began records exactly one outcome. |
| RequestLifecycle.AlwaysAccounted | internal/agent/runner.go:600-672 | With any number of requests in flight: for every kind of request, those that began are those that ended and those in flight. |
| RequestLifecycle.EndsAtMostOnce | internal/agent/runner.go:600-672 | No request ends twice. |
| RequestLifecycle.EndsIfNotInFlight | internal/agent/runner.go:600-672 | A request that began and is not in flight has ended. |
| RequestLifecycle.LifecycleConserved | README.md:20 | At every moment issued = successes + HTTP failures + transport errors + cancelled + in flight. |
| RequestLifecycle.ScenarioConserved | internal/agent/runner.go:991-1131 | The matching balance for each scenario, where an HTTP failure counts as completed and as failed. |
| AgentResult.Result | internal/agent/runner.go:1186-1254 | The reported result, computed from the object's fields with the map loop and the sort; a request rate over no time at all is infinite or not a number. |
| AgentResult.ResultConserves | README.md:20 | What is reported accounts for requests under way, and obeys the identity when there are none. |
| AgentResult.ResultGoodput | internal/agent/runner.go:1206-1212 | Reported goodput is SLO-meeting requests, all of them successes, over everything that finished. |
| AgentResult.TimelineAgrees | internal/agent/runner.go:1191-1199 | Each column of the reported timeline plus what fell into seconds without room adds up to the run's counter; a row's completed requests are its successes and failures. |
| AgentResult.NothingLost | internal/agent/runner.go:27-28 | A run whose events stay within the first 4200 seconds loses nothing from its timeline. |
| Distributed.DistributedIsSingleProcess | README.md:45 | However requests were spread over agents and reports merged, every counter, the goodput and completion rates and every latency distribution equal those of a single process, as long as the samples fit. |
| Distributed.RatesAgreeOnTime | internal/store/store.go:680-684 | The request and output rates equal those of a single process if and only if nothing was counted or that process took exactly the configured duration, by which the controller divides; the request rate only if some time passed at all. |
| Distributed.OvertimeRaisesRate | internal/agent/runner.go:1202-1204 | Whenever an agent took longer than configured and finished something, the controller shows a higher request rate for its run than the agent reported. |
| Distributed.OvertimeHappens | internal/agent/runner.go:1202-1204 | Such a run, from a log an agent can have: one request that begins and succeeds, in 60 configured seconds that took 75. |
| DistributedRows.ScenariosAgree | internal/store/store.go:773-786 | The merged scenario rows are the single process's: the same scenarios, once each, with the same counters, completion rate and latencies. |
| DistributedRows.TimelinesAgree | internal/store/store.go:757-795 | The merged seconds are the single process's, with the same counters, when nothing happens outside the time the timeline covers. |
| DistributedRows.SecondP95NeverTooLow | internal/store/store.go:757-771 | The P95 of a merged second is never below the single process's, as long as at most 1000 requests finished in it. |
| Distributed.CounterAgrees | internal/store/store.go:580-654 | Every merged counter is that of one agent that saw all requests, in any order. |
| Distributed.DistributionAgrees | internal/store/store.go:659-666 | So is every latency distribution, with or without samples to pool. |
| Decimation.FlagTellsExactness | internal/agent/runner.go:1251 | The merged flag for thinned samples is set if and only if some agent's log overran its own sample sets, and unless it is set each merged distribution is that of everything the agents measured. |
| Workload.WeightedPick | internal/agent/runner.go:811-830 | The two loops, summing the weights and subtracting them, choose an entry. |
| Workload.PickIs | internal/agent/runner.go:816-820 | An entry is chosen exactly for the picks in its own share of the range. |
| Workload.ExactMix | internal/agent/runner.go:806-873 | Among any consecutive numbers as many as the weights add up to, each entry is chosen exactly its weight in times, round after round. |
| Workload.ExactVariation | internal/agent/runner.go:841-853 | Among any 100 consecutive requests of a mixed run exactly the configured percentage is varied, 30 when none is set. |
| Workload.Unscatter | internal/agent/runner.go:852 | Multiplying by 37 modulo 100 takes every remainder once. |
| Workload.Sequences.NextWorkload | internal/agent/runner.go:806-854 | The next number, whether it is varied, and the task it gets with its output length jittered and its prompt padded, for any hash. |
| Workload.Shaped | internal/agent/runner.go:833-840 | Jitter moves the output length by at most the configured spread, never below 1 token, and padding only extends the prompt. |
| Workload.Jitter | internal/agent/runner.go:218-226 | The offset is symmetric around 0 and within the configured spread. |
| Workload.PromptFiller | internal/agent/runner.go:1289-1298 | The loop builds exactly the wanted number of characters, starting with the request's number. |
| Workload.FillersDiffer | internal/agent/runner.go:1285-1298 | Padding long enough to show the number makes the prompts of any two requests different. |
| Workload.Sequences.NextJourney | internal/agent/runner.go:856-873 | The next journey, on a counter of its own. |
| TraceReplay.ValidateTrace | internal/core/target.go:95-116 | The loop accepts exactly the traces that are ordered, within bounds and shorter than the run, and otherwise names the first check that fails. |
| TraceReplay.ScheduleFits | internal/agent/runner.go:417-431 | The events of a validated trace fall due in order and strictly within the run. |
| TraceReplay.ImportAccepts | web/src/trace-replay.js:27-37 | Exactly the non-empty, not too long, completely timed and ordered row lists are imported. |
| TraceReplay.ImportKeepsOrder | web/src/trace-replay.js:38-44 | Importing starts the trace at 0 and keeps its order through rounding. |
| TraceReplay.ImportedTraceIsReplayable | web/src/trace-replay.js:47-51 | An imported trace, run for the duration the page computes for the same scale, passes the controller's trace checks. |
| Admission.AdmissionConserves | internal/agent/runner.go:371-405 | At every moment the journeys under way stay within the limit and every arrival was either launched or dropped. |
| Admission.DroppedAtTheLimit | internal/agent/runner.go:389-394 | An arrival is dropped only when the limit is reached. |
| Admission.Slots.TryEnter | internal/agent/runner.go:389-394 | The send that does not wait takes a slot exactly when one is free. |
| Admission.RunTrace | internal/agent/runner.go:407-468 | The replay loop launches and drops exactly what its specification says, up to the event at which the window closes. |
| Admission.AdmitConserves | internal/agent/runner.go:432-437 | Arrivals are launched plus dropped, in order, within the limit. |
| Admission.DroppedExactlyAtLimit | internal/agent/runner.go:432-437 | An arrival is dropped if and only if the limit is still reached after everyone who left has left. |
| Admission.ReplayedInTime | internal/agent/runner.go:407-468 | Whatever a validated trace launches or drops is due within the run. |

## Left out

- HTTP handlers and clients, event streams, timers and contexts: only the outcome each path leads to is kept.
- PostgreSQL persistence, snapshots and `Restore`, JSON, encryption, sign-in and host allow-lists.
- Captures, monitoring series, detected server settings, live progress, and who created a run: fields no other operation reads.
- `CompleteRun` (internal/store/store.go:532-546): it completes a run without its shards, and the controller never calls it.
- Prometheus queries, saturation and attribution verdicts, CSV export, the user interface, and all message texts that operators
  read, including why a step was unstable.
- When to back off after consecutive failures, and Poisson gaps: timing. The backoff counters come with the clock readings.
- The timing of warm-up, stages, drain and cooldown; a stage's load is not split between shards, and a share of 0
  requests per second still runs at 1.
- 64-bit overflow, and rounding of floating-point numbers.
- Re-reporting a shard: agents report each shard once, so merging again without the dropped samples does not occur.
- Samples of cancelled runs, which the store keeps.
- The counters of a result, and the counters and sample sets of the measurements object, are grouped into records; the sample
  sets inside the object are values, and the in-place buffer is proved equal to them in `SampleSets.SampleBuffer`.
- Rows of the agent's timeline and scenarios are replaced in their maps rather than updated through pointers.
- MergeProperties.MergingIgnoresOrder: leaves out the fields that do depend on the order, which it lists.
- Store.MemoryStore.CompleteShard: first lists the run's shards in map order and then merges them in that order; the code
  ranges over the map twice.
- Sweep.KneeLoad: sorts with a stable insertion sort; for a load measured twice with different outcomes the code's sort may put
  either first.
- Distributed.DistributedIsSingleProcess: leaves out the request and output rates, which differ (`RatesAgreeOnTime`), runs whose
  samples were thinned out, and the generator delay, the error list and the guardrail, which depend on which agent saw what.
- DistributedRows.ScenariosAgree: leaves out the output rate of a scenario, which the merge adds up and every agent divides by
  its own time, and the order of the rows.
- DistributedRows.TimelinesAgree: leaves out the gauges, which each agent reads on its own, and the P95 of a second, which the
  merge takes from the worst agent (`SecondP95NeverTooLow`).
- TraceReplay.ImportedTraceIsReplayable: covers the trace checks only; a computed duration above 3600 seconds is still rejected
  by the general bound on durations (internal/core/target.go:47), which is not modelled.
- Workload.Sequences.NextJourney: takes journeys whose weights are not negative, as validation guarantees.
- Admission.RunTrace: takes the number of journeys that have left before each arrival as given.
- TraceReplay.ImportAccepts: starts from decoded rows; reading JSON and dates is not part of this model.
