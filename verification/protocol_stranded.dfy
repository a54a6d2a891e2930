/** Two histories that end with a stranded search, operation by operation from the empty store. */
module ProtocolStranded {
  import opened Core
  import opened Folds
  import opened ShardMerge
  import opened Sweep
  import opened SweepProperties
  import opened StoreState
  import opened Protocol
  import opened ProtocolSearches
  import opened ProtocolTheorems
  import opened ProtocolScans
  import opened ProtocolStranding
  import Merging = MergeProperties

  // ----- stopping the run

  /** Creating a search and then stopping its first run, instead of the search, strands it: two operations are enough,
      whatever the plan. */
  lemma StoppedRunStrands(plan: SearchConfig) returns (trace: seq<World>, events: seq<Event>)
    requires 1 <= plan.startLoad <= plan.maxLoad
    ensures History(trace, events) && events == [SearchCreated(plan), RunStopped(2)] && Stranded(trace[2], 1)
  {
    hide CreateSearch, CancelRun, Inv;
    var w1 := INITIAL.(store := CreateSearch(EMPTY_STORE, plan));
    var w2 := w1.(store := CancelRun(w1.store, 2));
    trace, events := [INITIAL, w1, w2], [SearchCreated(plan), RunStopped(2)];
    FirstRungQueued(plan, w1);
    InitialInv();
    assert Next(INITIAL, SearchCreated(plan), w1);
    NextKeepsInv(INITIAL, SearchCreated(plan), w1);
    assert StepAt(trace, events, 0);
    LinkedNow(w1);
    assert Next(w1, RunStopped(2), w2);
    assert StepAt(trace, events, 1);
    hide Next;
    StrandsExactly(w1, RunStopped(2), w2, 1);
  }

  lemma LinkedNow(w: World)
    requires Inv(w)
    ensures Linked(w.store)
  {
  }

  lemma FirstRungQueued(plan: SearchConfig, w1: World)
    requires w1 == INITIAL.(store := CreateSearch(EMPTY_STORE, plan))
    ensures RunningSearch(w1, 1) && CurrentRun(w1.store.searches[1]) == 2 && w1.store.runs[2].Active()
  {
  }

  // ----- deleting the target

  const TARGET := Target(0, "model", "http://model.internal")
  const CONFIG := RunConfig(
    1, VU, 1, 0, 60, 0.0, 1000, 0, 0, 0.0, 0.0, 0.0, Unset, 0, "", 1, "prompt", 16, [], false, false)
  const PLAN := SearchConfig(CONFIG, 1, 2)

  /** One request, and it succeeded. */
  const REPORT := NO_RESULT.(counts := ZERO_COUNTS.(issued := 1, successes := 1, completed := 1, total := 1))

  lemma OneReport(config: RunConfig)
    ensures var m := Merged(config, [REPORT]);
            && m.counts.total == 1 && m.counts.successes == 1 && m.counts.failures == 0
            && m.completionPercent == 100.0 && m.latency == NO_DISTRIBUTION && m.p95Millis == 0
  {
    hide Merged;
    OneCounted(Merging.Counter.Total);
    OneCounted(Merging.Counter.Successes);
    OneCounted(Merging.Counter.Failures);
    OneCounted(Merging.Counter.Issued);
    OneCounted(Merging.Counter.Completed);
    Merging.MergingConserves(config, [REPORT], Merging.Counter.Total);
    Merging.MergingConserves(config, [REPORT], Merging.Counter.Successes);
    Merging.MergingConserves(config, [REPORT], Merging.Counter.Failures);
    Merging.MergingConserves(config, [REPORT], Merging.Counter.Issued);
    Merging.MergingConserves(config, [REPORT], Merging.Counter.Completed);
    Merging.MergedTally(config, [REPORT]);
    Merging.WithoutSamples(config, [REPORT], Merging.Metric.Latency);
    Merging.MergedHeadline(config, [REPORT]);
    OneFallback();
  }

  lemma OneCounted(counter: Merging.Counter)
    ensures SumBy(counter.Read(), [REPORT]) == counter.Read()(REPORT)
  {
    assert [REPORT][1..] == [];
  }

  lemma OneFallback()
    ensures Merging.Metric.Latency.In(Merging.FallbackOf([REPORT])) == NO_DISTRIBUTION
  {
    FoldSnoc(AddFallback, NO_FALLBACK, [], REPORT);
    assert [] + [REPORT] == [REPORT];
    Merging.AddFallbackStep(Merging.Metric.Latency, NO_FALLBACK, REPORT);
    hide AddFallback;
  }

  /** The run of one good request meets the plan's limits. */
  lemma OneReportIsStable(run: Run)
    requires run.result == Merged(run.config, [REPORT])
    requires run.config.maxErrorPercent == 0.0 && run.config.maxP95Millis == 1000 && run.config.maxTtftP95Millis == 0
    requires run.config.minOutputTokensPerSecond == 0.0 && run.config.minCompletionPercent == 0.0
    ensures IsRunStable(run)
  {
    hide Merged;
    OneReport(run.config);
  }

  /** The search as it waits for its first run, and as that run finds it. */
  const SEARCH := NewSearch(State(1, map[1 := TARGET.(id := 1)], map[], map[], map[], map[], map[]),
      PLAN).(runIds := [3])

  /** The store while the search has one run, with one shard. */
  ghost predicate OneRun(s: State, run: Run, shard: RunStatus)
  {
    && s.nextId == 4 && s.runs == map[3 := run] && s.shards == map[4 := Shard(4, 3, shard, 0)]
    && s.searches == map[2 := SEARCH] && s.searchRun == map[3 := 2]
    && run.id == 3 && run.config == CONFIG.(workloadId := run.config.workloadId)
  }

  lemma Planned(w: World, w': World) returns (run: Run)
    requires w == INITIAL.(store := CreateTarget(EMPTY_STORE, TARGET))
    requires w' == w.(store := CreateSearch(w.store, PLAN))
    ensures OneRun(w'.store, run, Queued) && run.status == Queued && w'.store.targets == map[1 := TARGET.(id := 1)]
  {
    hide NewShards;
    run := w'.store.runs[3];
    OneNewShard(3);
    assert w'.store.shards == map[4 := Shard(4, 3, Queued, 0)];
    assert w'.store.runs == map[3 := run];
    assert w'.store.searches == map[2 := w'.store.searches[2]];
    assert w'.store.searches[2] == SEARCH;
  }

  lemma Taken(s: State, run: Run)
    requires OneRun(s, run, Queued) && run.status == Queued && 1 in s.targets && Linked(s)
    ensures Claimable(s, 4)
    ensures var s' := TakeShard(s, 4, 0).0;
            OneRun(s', s'.runs[3], Running) && s'.runs[3].status == Running && s'.targets == s.targets
  {
  }

  lemma ReportedOnce(s: State, run: Run)
    requires OneRun(s, run, Running) && run.status == Running && Linked(s)
    ensures var s' := CompleteShard(s, 4, REPORT, [4]);
            && 3 in s'.runs && OneRun(s', s'.runs[3], Completed) && s'.runs[3].status == Completed
            && s'.targets == s.targets
            && s'.runs[3].result == Merged(run.config, [REPORT]) && s'.runs[3].config == run.config
            && OrderOf(s', 3, [4])
  {
    hide Merged, StripSamples;
    assert Completes(FileReport(s, 4, REPORT), 3);
    assert Map(ResultOf(s.shardResults[4 := REPORT]), [4]) == [REPORT];
  }

  lemma Unused(s: State, run: Run)
    requires OneRun(s, run, Completed) && run.status == Completed && 1 in s.targets
    ensures DeleteTarget(s, 1).0 == s.(targets := s.targets - {1})
  {
  }

  lemma SearchIsLive()
    ensures Live(SEARCH) && SEARCH.ladder == [1, 2]
  {
    PlannedSweepIsLive(SEARCH);
    assert Doublings(2, 2, 11) == [];
  }

  /** The search waits for its second run, which is queued on a target that is gone. */
  ghost predicate SecondRungWaits(s: State)
  {
    && s.runs.Keys == {3, 5} && s.shards == map[4 := Shard(4, 3, Completed, 0), 6 := Shard(6, 5, Queued, 0)]
    && 2 in s.searches && s.searches[2].status == SearchRunning && s.searches[2].runIds == [3, 5]
    && s.runs[5].status == Queued && s.runs[5].config.targetId == 1 && 1 !in s.targets
  }

  /** The stable first rung makes the search queue its second: run 5, on a target that is gone. */
  lemma SecondRung(s: State, run: Run)
    requires OneRun(s, run, Completed) && run.status == Completed && run.result == Merged(run.config, [REPORT])
    requires Linked(s) && 1 !in s.targets
    ensures SecondRungWaits(AdvanceStore(s, 3))
  {
    hide Merged, IsRunStable, SecondRungWaits, Advance, AdvanceStore, QueueSearchRun, Linked;
    OneReportIsStable(run);
    StepClimbs(run);
    var (after, next) := Advance(SEARCH, run);
    AdvanceShape(s, 3, SEARCH, after, next);
    SecondRungQueued(s, run, after);
  }

  lemma StepClimbs(run: Run)
    requires run.config.Load() == 1 && IsRunStable(run)
    ensures var (after, next) := Advance(SEARCH, run);
            && next == Some(after.nextLoad) && after.id == 2 && after.config == PLAN && after.runIds == [3]
            && after.status == SearchRunning
  {
    hide IsRunStable, Advance, Live, OnLadder, Tracked;
    SearchIsLive();
    AdvanceClimbs(SEARCH, run);
    assert Advance(SEARCH, run).0.steps == [StepFrom(1, run)];
  }

  lemma SecondRungQueued(s: State, run: Run, after: AutoSearch)
    requires OneRun(s, run, Completed) && Linked(s) && after.id == 2 && after.config == PLAN
    requires after.runIds == [3] && after.status == SearchRunning && 1 !in s.targets
    ensures SecondRungWaits(QueueSearchRun(s, after, after.nextLoad))
  {
    hide Linked, NewShards;
    OneNewShard(5);
  }

  lemma OneNewShard(r: nat)
    ensures NewShards(r, 1) == map[r + 1 := Shard(r + 1, r, Queued, 0)]
  {
  }

  /** Histories are put together from the front: `rest` goes on from `w`. */
  ghost predicate GoesOn(w: World, rest: seq<World>, events: seq<Event>)
    decreases |rest|
  {
    && |rest| == |events|
    && (rest != [] ==> Next(w, events[0], rest[0]) && GoesOn(rest[0], rest[1..], events[1..]))
  }

  lemma {:induction false} GoesOnSteps(w: World, rest: seq<World>, events: seq<Event>, i: nat)
    requires GoesOn(w, rest, events) && i < |events| == |rest|
    ensures Next(([w] + rest)[i], events[i], ([w] + rest)[i + 1])
    decreases |rest|
  {
    hide Next;
    if i > 0 {
      GoesOnSteps(rest[0], rest[1..], events[1..], i - 1);
      assert rest == [rest[0]] + rest[1..];
    }
  }

  lemma GoesOnIsHistory(rest: seq<World>, events: seq<Event>)
    requires GoesOn(INITIAL, rest, events)
    ensures History([INITIAL] + rest, events)
  {
    SameLength(INITIAL, rest, events);
    hide Next, GoesOn;
    forall i | 0 <= i < |events| ensures StepAt([INITIAL] + rest, events, i) { GoesOnSteps(INITIAL, rest, events, i); }
  }

  lemma SameLength(w: World, rest: seq<World>, events: seq<Event>)
    requires GoesOn(w, rest, events)
    ensures |rest| == |events|
  {
  }

  lemma OneMore(w: World, e: Event, w': World, rest: seq<World>, events: seq<Event>)
    requires Next(w, e, w') && GoesOn(w', rest, events)
    ensures GoesOn(w, [w'] + rest, [e] + events)
  {
    hide Next;
    assert ([w'] + rest)[1..] == rest && ([e] + events)[1..] == events;
  }

  /** Creating a target, planning a search on it, running its first rung with one good request, deleting
      the target before the search takes its step, and scanning for work: the search is stranded, though
      nobody stopped anything. */
  lemma DeletedTargetStrands() returns (trace: seq<World>, events: seq<Event>, a: Assignment)
    ensures History(trace, events) && |trace| == 8 && Stranded(trace[7], 2)
    ensures events
         == [TargetCreated(TARGET), SearchCreated(PLAN), ShardsScanned([4], 0, Some(a)), ShardReported(4, REPORT, [4]),
             TargetDeleted(1), SearchAdvanced(3), ShardsScanned([4, 6], 0, None)]
  {
    hide Next, Stranded, Inv, GoesOn, OneRun, Merged;
    var w1, w2, run := PlanFirst();
    var a', w3 := ClaimFirst(w2, run);
    a := a';
    var w4 := ReportFirst(w3);
    var rest, later := LastThree(w4);
    OneMore(w3, ShardReported(4, REPORT, [4]), w4, rest, later);
    var events3 := [ShardReported(4, REPORT, [4])] + later;
    OneMore(w2, ShardsScanned([4], 0, Some(a)), w3, [w4] + rest, events3);
    var events2 := [ShardsScanned([4], 0, Some(a))] + events3;
    OneMore(w1, SearchCreated(PLAN), w2, [w3] + ([w4] + rest), events2);
    var events1 := [SearchCreated(PLAN)] + events2;
    OneMore(INITIAL, TargetCreated(TARGET), w1, [w2] + ([w3] + ([w4] + rest)), events1);
    events := [TargetCreated(TARGET)] + events1;
    trace := [INITIAL] + ([w1] + ([w2] + ([w3] + ([w4] + rest))));
    GoesOnIsHistory([w1] + ([w2] + ([w3] + ([w4] + rest))), events);
  }

  lemma LastThree(w4: World) returns (rest: seq<World>, events: seq<Event>)
    requires Inv(w4) && 3 in w4.store.runs && OneRun(w4.store, w4.store.runs[3], Completed)
    requires w4.store.runs[3].status == Completed && 3 in w4.pending && 1 in w4.store.targets
    requires w4.store.runs[3].result == Merged(w4.store.runs[3].config, [REPORT])
    ensures GoesOn(w4, rest, events) && |rest| == 3 && Stranded(rest[2], 2)
    ensures events == [TargetDeleted(1), SearchAdvanced(3), ShardsScanned([4, 6], 0, None)]
  {
    hide Next, Stranded, Inv, OneRun, Merged, SecondRungWaits;
    var w5 := DeleteTargetNext(w4);
    var w6 := StepNext(w5);
    var w7 := ScanLast(w6);
    assert GoesOn(w7, [], []);
    hide GoesOn;
    OneMore(w6, ShardsScanned([4, 6], 0, None), w7, [], []);
    OneMore(w5, SearchAdvanced(3), w6, [w7] + [], [ShardsScanned([4, 6], 0, None)] + []);
    OneMore(w4, TargetDeleted(1), w5, [w6] + ([w7] + []),
            [SearchAdvanced(3)] + ([ShardsScanned([4, 6], 0, None)] + []));
    rest := [w5] + ([w6] + ([w7] + []));
    events := [TargetDeleted(1)] + ([SearchAdvanced(3)] + ([ShardsScanned([4, 6], 0, None)] + []));
  }

  lemma PlanFirst() returns (w1: World, w2: World, run: Run)
    ensures Next(INITIAL, TargetCreated(TARGET), w1) && Next(w1, SearchCreated(PLAN), w2) && Inv(w2)
    ensures OneRun(w2.store, run, Queued) && run.status == Queued && 1 in w2.store.targets
    ensures w2.handed == map[] && w2.reports == map[] && w2.pending == {}
  {
    hide CreateSearch, Inv, OneRun;
    w1 := INITIAL.(store := CreateTarget(EMPTY_STORE, TARGET));
    w2 := w1.(store := CreateSearch(w1.store, PLAN));
    run := Planned(w1, w2);
    InitialInv();
    NextKeepsInv(INITIAL, TargetCreated(TARGET), w1);
    LinkedNow(w1);
    NextKeepsInv(w1, SearchCreated(PLAN), w2);
  }

  lemma ClaimFirst(w2: World, run: Run) returns (a: Assignment, w3: World)
    requires Inv(w2) && OneRun(w2.store, run, Queued) && run.status == Queued && 1 in w2.store.targets
    requires w2.handed == map[] && w2.reports == map[] && w2.pending == {}
    ensures Next(w2, ShardsScanned([4], 0, Some(a)), w3) && Inv(w3)
    ensures 3 in w3.store.runs && OneRun(w3.store, w3.store.runs[3], Running) && w3.store.runs[3].status == Running
    ensures 4 in w3.handed && w3.reports == map[] && w3.pending == {} && w3.store.targets == w2.store.targets
  {
    LinkedNow(w2);
    Taken(w2.store, run);
    hide Inv, Next, Claimable, TakeShard;
    a, w3 := ClaimableIsClaimed(w2, 4, 0);
    NextKeepsInv(w2, ShardsScanned([4], 0, Some(a)), w3);
  }

  lemma OneShard(s: State, run: Run)
    requires OneRun(s, run, Running)
    ensures 4 in s.shards && s.shards[4].runId == 3
  {
  }

  lemma ReportFirst(w3: World) returns (w4: World)
    requires Inv(w3) && 3 in w3.store.runs && OneRun(w3.store, w3.store.runs[3], Running)
    requires w3.store.runs[3].status == Running && 4 in w3.handed && w3.reports == map[] && w3.pending == {}
    ensures Next(w3, ShardReported(4, REPORT, [4]), w4) && Inv(w4)
    ensures 3 in w4.store.runs && OneRun(w4.store, w4.store.runs[3], Completed) && w4.store.runs[3].status == Completed
    ensures w4.store.runs[3].result == Merged(w4.store.runs[3].config, [REPORT])
    ensures 3 in w4.pending && w4.store.targets == w3.store.targets
  {
    hide Inv, Merged, CompleteShard, OrderOf, OneRun;
    LinkedNow(w3);
    ReportedOnce(w3.store, w3.store.runs[3]);
    OneShard(w3.store, w3.store.runs[3]);
    w4 := World(CompleteShard(w3.store, 4, REPORT, [4]), w3.handed, w3.reports[4 := REPORT], w3.pending + {3},
                w3.merges[3 := [4]]);
    hide Linked;
    assert Reports(w3, 4, REPORT, [4], w4);
    NextKeepsInv(w3, ShardReported(4, REPORT, [4]), w4);
  }

  lemma SameRun(s: State, t: State, run: Run)
    requires OneRun(s, run, Completed) && t == s.(targets := t.targets)
    ensures OneRun(t, run, Completed)
  {
  }

  lemma DeleteTargetNext(w4: World) returns (w5: World)
    requires Inv(w4) && 3 in w4.store.runs && OneRun(w4.store, w4.store.runs[3], Completed)
    requires w4.store.runs[3].status == Completed && 3 in w4.pending && 1 in w4.store.targets
    ensures Next(w4, TargetDeleted(1), w5) && Inv(w5)
    ensures w5 == w4.(store := w4.store.(targets := w5.store.targets)) && 1 !in w5.store.targets
    ensures OneRun(w5.store, w5.store.runs[3], Completed)
  {
    hide Inv, DeleteTarget, Linked;
    w5 := w4.(store := w4.store.(targets := w4.store.targets - {1}));
    LinkedNow(w4);
    Unused(w4.store, w4.store.runs[3]);
    SameRun(w4.store, w5.store, w4.store.runs[3]);
    hide OneRun;
    NextKeepsInv(w4, TargetDeleted(1), w5);
  }

  lemma StepNext(w5: World) returns (w6: World)
    requires Inv(w5) && 3 in w5.store.runs && OneRun(w5.store, w5.store.runs[3], Completed)
    requires w5.store.runs[3].status == Completed && 3 in w5.pending && 1 !in w5.store.targets
    requires w5.store.runs[3].result == Merged(w5.store.runs[3].config, [REPORT])
    ensures Next(w5, SearchAdvanced(3), w6) && Inv(w6) && SecondRungWaits(w6.store)
  {
    hide Inv, AdvanceStore, Merged, OneRun, SecondRungWaits;
    LinkedNow(w5);
    w6 := w5.(store := AdvanceStore(w5.store, 3), pending := w5.pending - {3});
    SecondRung(w5.store, w5.store.runs[3]);
    NextKeepsInv(w5, SearchAdvanced(3), w6);
  }

  lemma WaitsInVain(w6: World)
    requires SecondRungWaits(w6.store)
    ensures Strands(w6, ShardsScanned([4, 6], 0, None), 2) && 2 in w6.store.searches
  {
    assert 6 in [4, 6];
    assert MeetsQueued(w6.store, [4, 6], 5);
    hide MeetsQueued;
  }

  lemma ScanLast(w6: World) returns (w7: World)
    requires Inv(w6) && SecondRungWaits(w6.store)
    ensures Next(w6, ShardsScanned([4, 6], 0, None), w7) && Stranded(w7, 2)
  {
    hide Inv, SkipShards, Claims, SecondRungWaits, Strands, Stranded;
    LinkedNow(w6);
    WaitsInVain(w6);
    NoneClaimable(w6.store);
    w7 := w6.(store := SkipShards(w6.store, [4, 6]));
    StrandsExactly(w6, ShardsScanned([4, 6], 0, None), w7, 2);
  }

  /** A scan over all shards, none of which can be handed out, comes back empty. */
  lemma FutileScan(s: State, order: seq<nat>, now: int)
    requires Linked(s) && Distinct(order) && (forall id :: id in s.shards <==> id in order)
    requires forall i :: 0 <= i < |order| ==> order[i] in s.shards && !Claimable(s, order[i])
    ensures Claims(s, order, now, SkipShards(s, order), None)
  {
    hide SkipShards, Linked, Claimable;
    forall i | 0 <= i < |order| ensures Passed(s, order, i) { StillClaimable(s, order[..i], order[i]); }
  }

  lemma NoneClaimable(s: State)
    requires Linked(s) && SecondRungWaits(s)
    ensures forall i :: 0 <= i < 2 ==> [4, 6][i] in s.shards
    ensures Claims(s, [4, 6], 0, SkipShards(s, [4, 6]), None)
  {
    hide Linked, Claimable, Claims, SkipShards;
    NotClaimable(s);
    FutileScan(s, [4, 6], 0);
  }

  lemma NotClaimable(s: State)
    requires Linked(s) && SecondRungWaits(s)
    ensures !Claimable(s, 4) && !Claimable(s, 6)
  {
  }
}
