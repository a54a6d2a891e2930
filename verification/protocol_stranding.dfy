/** When a capacity search gets stuck. A running search waits for its last run; once that run is cancelled on its own,
    no later operation but cancelling the search itself ends it. */
module ProtocolStranding {
  import opened Core
  import opened Sweep
  import opened SweepProperties
  import opened StoreState
  import opened Protocol
  import opened ProtocolRuns
  import opened ProtocolReports
  import opened ProtocolSearches
  import opened ProtocolTheorems
  import opened ProtocolScans

  function CurrentRun(s: AutoSearch): nat
    requires s.runIds != []
  {
    s.runIds[|s.runIds| - 1]
  }

  /** A search that says it is running, and its last run. */
  ghost predicate RunningSearch(w: World, k: nat)
  {
    && k in w.store.searches
    && var s := w.store.searches[k];
       s.status == SearchRunning && s.runIds != [] && CurrentRun(s) in w.store.runs
  }

  /** The search says it is running, but the run it waits for was cancelled. */
  ghost predicate Stranded(w: World, k: nat)
  {
    RunningSearch(w, k) && w.store.runs[CurrentRun(w.store.searches[k])].status == Cancelled
  }

  // ----- nothing to wait for

  /** Something of the search is still to come: a run that is queued or running, or the step of a completed one. */
  ghost predicate Outstanding(w: World, s: AutoSearch)
  {
    exists i :: 0 <= i < |s.runIds| && s.runIds[i] in w.store.runs
                && (w.store.runs[s.runIds[i]].Active() || s.runIds[i] in w.pending)
  }

  lemma RunningRungs(w: World, k: nat)
    requires Inv(w) && k in w.store.searches && w.store.searches[k].status == SearchRunning
    ensures var s := w.store.searches[k];
            |s.runIds| == |s.steps| + 1 && forall i :: 0 <= i < |s.runIds| ==> RungOk(w, s, i)
  {
    hide Inv, RunsInv, SearchesInvExcept, Live, Linked, RungOk, Distinct;
    InvParts(w, k);
    RunsLinked(w);
    SearchKnown(w, k);
    RunningSearchOk(w, k);
  }

  lemma RunningIsSearch(w: World, k: nat)
    requires Inv(w) && k in w.store.searches && w.store.searches[k].status == SearchRunning
    ensures RunningSearch(w, k)
  {
    hide Inv, RungOk;
    RunningRungs(w, k);
    RungOutstanding(w, w.store.searches[k], |w.store.searches[k].steps|);
  }

  lemma PendingIsCompleted(w: World, r: nat)
    requires Inv(w) && r in w.pending
    ensures r in w.store.runs && w.store.runs[r].status == Completed
  {
    hide Inv;
    PendingKnown(w, r);
  }

  /** Only the last run of a running search can be outstanding, and if it is not, it was cancelled. */
  lemma RungOutstanding(w: World, s: AutoSearch, i: nat)
    requires i < |s.runIds| == |s.steps| + 1 && s.status == SearchRunning && RungOk(w, s, i)
    ensures s.runIds[i] in w.store.runs
    ensures var r := s.runIds[i];
            if i < |s.steps| then !w.store.runs[r].Active() && r !in w.pending
            else w.store.runs[r].status == Completed ==> r in w.pending
  {
    hide StepFrom;
  }

  ghost predicate Over(w: World, r: nat) { r in w.store.runs && !w.store.runs[r].Active() && r !in w.pending }

  lemma OutstandingIsLast(w: World, s: AutoSearch)
    requires s.runIds != [] && CurrentRun(s) in w.store.runs
    requires forall i :: 0 <= i < |s.runIds| - 1 ==> Over(w, s.runIds[i])
    ensures Outstanding(w, s) <==> !Over(w, CurrentRun(s))
  {
    if !Over(w, CurrentRun(s)) { assert s.runIds[|s.runIds| - 1] in w.store.runs; }
    if Outstanding(w, s) {
      var i :| 0 <= i < |s.runIds| && s.runIds[i] in w.store.runs
               && (w.store.runs[s.runIds[i]].Active() || s.runIds[i] in w.pending);
      assert !Over(w, s.runIds[i]);
    }
  }

  lemma LastOfRunning(w: World, k: nat)
    requires Inv(w) && RunningSearch(w, k)
    ensures var s := w.store.searches[k];
            && (forall i :: 0 <= i < |s.runIds| - 1 ==> Over(w, s.runIds[i]))
            && (w.store.runs[CurrentRun(s)].status == Completed ==> CurrentRun(s) in w.pending)
  {
    hide Inv, RungOk;
    RunningRungs(w, k);
    var s := w.store.searches[k];
    forall i | 0 <= i < |s.runIds| - 1 ensures Over(w, s.runIds[i]) { RungOutstanding(w, s, i); }
    RungOutstanding(w, s, |s.runIds| - 1);
  }

  /** A running search is stranded if and only if nothing of it is queued, running or waiting for its step. */
  lemma StrandedMeansNothingOutstanding(w: World, k: nat)
    requires Inv(w) && k in w.store.searches && w.store.searches[k].status == SearchRunning
    ensures Stranded(w, k) <==> !Outstanding(w, w.store.searches[k])
  {
    hide Inv, Outstanding;
    RunningIsSearch(w, k);
    LastOfRunning(w, k);
    OutstandingIsLast(w, w.store.searches[k]);
    var r := CurrentRun(w.store.searches[k]);
    if r in w.pending { PendingIsCompleted(w, r); }
  }

  // ----- what cancels a run

  /** The operation cancels run `r`. */
  ghost predicate CancelsRun(w: World, e: Event, r: nat)
    requires r in w.store.runs
  {
    match e
    case RunStopped(id) => id == r && w.store.runs[r].Active()
    case SearchStopped(id) => id in w.store.searches && r in w.store.searches[id].runIds && w.store.runs[r].Active()
    case ShardsScanned(order, _, _) => Homeless(w.store, r) && MeetsQueued(w.store, order, r)
    case _ => false
  }

  /** The status of `r` follows what the operation does to it. */
  ghost predicate CancelledBy(w: World, e: Event, w': World, r: nat)
    requires r in w.store.runs
  {
    && r in w'.store.runs
    && (w'.store.runs[r].status == Cancelled <==> w.store.runs[r].status == Cancelled || CancelsRun(w, e, r))
  }

  lemma {:induction false} CancelRunsCancel(s: State, ids: seq<nat>, r: nat)
    requires r in s.runs
    ensures var s' := CancelRuns(s, ids);
            && s'.searches == s.searches && r in s'.runs
            && (if r in ids && s.runs[r].Active() then s'.runs[r].status == Cancelled else s'.runs[r] == s.runs[r])
  {
    if ids != [] {
      var n := |ids| - 1;
      CancelRunsCancel(s, ids[..n], r);
      assert ids == ids[..n] + [ids[n]];
    }
  }

  lemma NewRunCancelsNone(w: World, config: RunConfig, r: nat)
    requires RunsInv(w) && r in w.store.runs
    ensures var s' := QueueRun(w.store, config, None); r in s'.runs && s'.runs[r] == w.store.runs[r]
  {
    NumbersBelow(w);
    hide RunsInv;
  }

  lemma CreateSearchCancelsNone(w: World, plan: SearchConfig, r: nat)
    requires Inv(w) && r in w.store.runs
    ensures var s' := CreateSearch(w.store, plan); r in s'.runs && s'.runs[r] == w.store.runs[r]
  {
    hide Inv, CreateSearch, Linked;
    var w' := w.(store := CreateSearch(w.store, plan));
    SearchCreates(w, plan, w');
  }

  /** Creating a search queues its first rung and leaves the rest alone. */
  lemma SearchCreates(w: World, plan: SearchConfig, w': World)
    requires Inv(w) && w' == w.(store := CreateSearch(w.store, plan))
    ensures RungQueued(w.(store := w.store.(nextId := w.store.nextId + 1)), w', NewSearch(w.store, plan))
    ensures w.store.nextId + 1 !in w.store.searches
  {
    hide Inv, RunsInv, SearchesInvExcept, QueueSearchRun, RungQueued, Linked, Evolves, CreateSearch, NewSearch;
    var w0 := w.(store := w.store.(nextId := w.store.nextId + 1));
    CreateIsQueue(w.store, plan);
    InvParts(w, 0);
    FreshSearch(w);
    TargetsDoNotMatter(w, w0);
    QueueIsRungQueued(w0, w', NewSearch(w.store, plan));
  }

  lemma QueuedCancelsNone(w: World, w': World, s: AutoSearch, r: nat)
    requires RungQueued(w, w', s) && r in w.store.runs
    ensures r in w'.store.runs && w'.store.runs[r] == w.store.runs[r]
  {
    hide Linked;
  }

  /** A step changes nothing, queues the next rung of its search, or files the search as finished. */
  lemma AdvanceEffect(w: World, finished: nat, w': World) returns (after: Option<AutoSearch>)
    requires Inv(w) && finished in w.pending
    requires w' == w.(store := AdvanceStore(w.store, finished), pending := w.pending - {finished})
    ensures after.None? ==> w'.store == w.store
    ensures after.Some? ==>
              && finished in w.store.searchRun && w.store.searchRun[finished] == after.value.id
              && after.value.id in w.store.searches
              && (|| RungQueued(w, w', after.value)
                  || (after.value.status == SearchCompleted
                      && w'.store == w.store.(searches := w.store.searches[after.value.id := after.value])))
  {
    InvParts(w, 0);
    hide Inv, RunsInv, SearchesInvExcept, AdvanceStore, Stepped, QueueSearchRun;
    if finished in w.store.searchRun && w.store.searches[w.store.searchRun[finished]].status == SearchRunning {
      var s, search := AdvanceOutcome(w, finished, w');
      SteppedId(w, finished, s, search);
      after := Some(search);
      hide Linked;
      if search.status == SearchRunning { QueueIsRungQueued(w, w', search); }
      hide RungQueued;
    } else {
      NothingToAdvance(w.store, finished);
      after := None;
    }
  }

  lemma AdvanceCancelsNone(w: World, finished: nat, w': World, r: nat)
    requires Inv(w) && finished in w.pending && r in w.store.runs
    requires w' == w.(store := AdvanceStore(w.store, finished), pending := w.pending - {finished})
    ensures r in w'.store.runs && w'.store.runs[r] == w.store.runs[r]
  {
    hide Inv, AdvanceStore, RungQueued;
    var after := AdvanceEffect(w, finished, w');
    if after.Some? && RungQueued(w, w', after.value) { QueuedCancelsNone(w, w', after.value, r); }
  }

  lemma ReportCancelsNone(w: World, id: nat, result: RunResult, visited: seq<nat>, w': World, r: nat)
    requires RunsInv(w) && Linked(w.store) && Reports(w, id, result, visited, w') && r in w.store.runs
    ensures r in w'.store.runs && (w'.store.runs[r].status == Cancelled <==> w.store.runs[r].status == Cancelled)
  {
    hide RunsInv, Linked, Reports;
    FiledOrMerged(w, id, result, visited, w');
  }

  lemma FiledOrMerged(w: World, id: nat, result: RunResult, visited: seq<nat>, w': World)
    requires RunsInv(w) && Linked(w.store) && Reports(w, id, result, visited, w')
    ensures w'.store.runs == w.store.runs
         || exists q :: q in w.store.runs && q in w'.store.runs && w.store.runs[q].status != Cancelled
                        && w'.store.runs[q].status == Completed && w'.store.runs == w.store.runs[q := w'.store.runs[q]]
  {
    hide RunsInv, MergeRun, CompleteShard, OrderOf, Linked;
    RunsLinked(w);
    ReportCases(w, id, result, visited, w');
    FiledLinks(w.store, id, result);
    MergeShape(FileReport(w.store, id, result), w.store.shards[id].runId, visited);
  }

  lemma StopCancels(w: World, e: Event, w': World, r: nat)
    requires Next(w, e, w') && r in w.store.runs && (e.RunStopped? || e.SearchStopped?)
    ensures CancelledBy(w, e, w', r)
  {
    hide CancelRun, CancelSearch, Linked;
    if e.RunStopped? { OneRunStopped(w.store, e.runId, r); } else { SearchStoppedCancels(w.store, e.searchId, r); }
  }

  lemma ScanningCancels(w: World, e: Event, w': World, r: nat)
    requires Next(w, e, w') && r in w.store.runs && e.ShardsScanned?
    ensures CancelledBy(w, e, w', r)
  {
    hide Claims, MeetsQueued, Homeless, Linked;
    ScanCancels(w.store, r, e.order, e.now, w'.store, e.claimed);
  }

  lemma OthersCancelNone(w: World, e: Event, w': World, r: nat)
    requires Inv(w) && Next(w, e, w') && r in w.store.runs
    requires !e.RunStopped? && !e.SearchStopped? && !e.ShardsScanned?
    ensures CancelledBy(w, e, w', r)
  {
    hide Inv, RunsInv, SearchesInvExcept, CreateSearch, AdvanceStore, Reports, QueueRun, DeleteTarget, Linked;
    InvParts(w, 0);
    match e
    case TargetCreated(_) =>
    case TargetDeleted(id) => DeleteShape(w.store, id);
    case RunCreated(config) => NewRunCancelsNone(w, config, r);
    case SearchCreated(plan) => CreateSearchCancelsNone(w, plan, r);
    case ShardReported(id, result, visited) => ReportCancelsNone(w, id, result, visited, w', r);
    case SearchAdvanced(run) => AdvanceCancelsNone(w, run, w', r);
  }

  /** A run becomes cancelled exactly when an operator stops it or its search while it is active, or when a scan meets
      one of its queued shards after its target is gone. */
  lemma RunCancelledExactly(w: World, e: Event, w': World, r: nat)
    requires Inv(w) && Next(w, e, w') && r in w.store.runs
    ensures CancelledBy(w, e, w', r)
  {
    hide Inv, Next, CancelledBy;
    match e
    case ShardsScanned(_, _, _) => ScanningCancels(w, e, w', r);
    case RunStopped(_) => StopCancels(w, e, w', r);
    case SearchStopped(_) => StopCancels(w, e, w', r);
    case _ => OthersCancelNone(w, e, w', r);
  }

  lemma SearchStoppedCancels(s: State, id: nat, r: nat)
    requires r in s.runs
    ensures var s' := CancelSearch(s, id);
            && r in s'.runs
            && (if id in s.searches && r in s.searches[id].runIds && s.runs[r].Active() then
                  s'.runs[r].status == Cancelled
                else s'.runs[r] == s.runs[r])
  {
    if id in s.searches {
      var marked := s.(searches := s.searches[id := s.searches[id].(status := SearchCancelled)]);
      CancelRunsCancel(marked, s.searches[id].runIds, r);
      hide CancelRuns;
    }
  }

  lemma OneRunStopped(s: State, id: nat, r: nat)
    requires r in s.runs
    ensures var s' := CancelRun(s, id);
            && r in s'.runs && s'.searches == s.searches
            && (if r == id && s.runs[r].Active() then s'.runs[r].status == Cancelled else s'.runs[r] == s.runs[r])
  {
  }

  // ----- what strands a search

  /** The operation strands search `k`: it stops the run the search waits for, not the search; or it is a scan that
      comes to a queued shard of that run after the target was deleted. */
  ghost predicate Strands(w: World, e: Event, k: nat)
  {
    && RunningSearch(w, k)
    && var r := CurrentRun(w.store.searches[k]);
       && w.store.runs[r].Active()
       && match e
          case RunStopped(id) => id == r
          case ShardsScanned(order, _, _) => Homeless(w.store, r) && MeetsQueued(w.store, order, r)
          case _ => false
  }

  /** Search `k` after an operation that is not its own step: as it was, unless it was cancelled itself. */
  ghost predicate Left(w: World, e: Event, w': World, k: nat)
    requires k in w.store.searches
  {
    && k in w'.store.searches
    && w'.store.searches[k]
       == if e == SearchStopped(k) then w.store.searches[k].(status := SearchCancelled) else w.store.searches[k]
  }

  /** After its own step a search has finished, or waits for a run that was just queued. */
  ghost predicate Climbed(w': World, k: nat)
  {
    && k in w'.store.searches
    && var s := w'.store.searches[k];
       s.status != SearchRunning
       || (s.runIds != [] && CurrentRun(s) in w'.store.runs && w'.store.runs[CurrentRun(s)].status == Queued)
  }

  lemma QueuedLeaves(w: World, w': World, s: AutoSearch, k: nat)
    requires RungQueued(w, w', s)
    ensures Climbed(w', s.id)
    ensures k in w.store.searches && k != s.id ==> k in w'.store.searches && w'.store.searches[k] == w.store.searches[k]
    ensures k in w'.store.searches ==> k in w.store.searches || k == s.id
  {
    hide Linked;
  }

  lemma AdvanceLeaves(w: World, finished: nat, w': World, k: nat)
    requires Inv(w) && finished in w.pending
    requires w' == w.(store := AdvanceStore(w.store, finished), pending := w.pending - {finished})
    ensures k in w.store.searches ==>
              || Left(w, SearchAdvanced(finished), w', k)
              || (finished in w.store.searchRun && w.store.searchRun[finished] == k && Climbed(w', k))
    ensures k !in w.store.searches ==> k !in w'.store.searches
  {
    hide Inv, AdvanceStore, RungQueued;
    var after := AdvanceEffect(w, finished, w');
    if after.Some? && RungQueued(w, w', after.value) { QueuedLeaves(w, w', after.value, k); }
  }

  lemma CreateLeaves(w: World, plan: SearchConfig, w': World, k: nat)
    requires Inv(w) && w' == w.(store := CreateSearch(w.store, plan))
    ensures k in w.store.searches ==> Left(w, SearchCreated(plan), w', k)
    ensures k in w'.store.searches && k !in w.store.searches ==> Climbed(w', k)
  {
    SearchCreates(w, plan, w');
    hide Inv, CreateSearch, RungQueued;
    QueuedLeaves(w.(store := w.store.(nextId := w.store.nextId + 1)), w', NewSearch(w.store, plan), k);
  }

  lemma {:induction false} CancelRunsLeaveSearches(s: State, ids: seq<nat>)
    ensures CancelRuns(s, ids).searches == s.searches
  {
    if ids != [] { CancelRunsLeaveSearches(s, ids[..|ids| - 1]); }
  }

  lemma SameSearches(w: World, w': World)
    requires Evolves(w, w')
    ensures w'.store.searches == w.store.searches
  {
  }

  lemma NextLeaves(w: World, e: Event, w': World, k: nat)
    requires Inv(w) && Next(w, e, w') && k in w.store.searches
    ensures || Left(w, e, w', k)
            || (e.SearchAdvanced? && e.finishedRun in w.pending && e.finishedRun in w.store.searchRun
                && w.store.searchRun[e.finishedRun] == k && Climbed(w', k))
  {
    hide Inv, CreateSearch, AdvanceStore, CancelRuns, Linked, Claims, Reports, Evolves, RunsInv, Climbed;
    match e
    case SearchCreated(plan) => CreateLeaves(w, plan, w', k);
    case SearchAdvanced(run) => AdvanceLeaves(w, run, w', k);
    case SearchStopped(id) =>
      if id in w.store.searches { CancelRunsLeaveSearches(Marked(w, id).store, w.store.searches[id].runIds); }
    case _ =>
      hide Next;
      NextEvolves(w, e, w');
      SameSearches(w, w');
  }

  /** The runs of a search are its own: stopping another search does not touch them. */
  lemma OwnRuns(w: World, k: nat, q: nat, r: nat)
    requires Inv(w) && k in w.store.searches && q in w.store.searches
    requires r in w.store.searches[k].runIds && r in w.store.searches[q].runIds
    ensures k == q
  {
    ListedInOwn(w, k, r);
    ListedInOwn(w, q, r);
    hide Inv;
  }

  lemma ListedInOwn(w: World, k: nat, r: nat)
    requires Inv(w) && k in w.store.searches && r in w.store.searches[k].runIds
    ensures r in w.store.searchRun && w.store.searchRun[r] == k && w.store.searches[k].id == k
  {
    SearchKnown(w, k);
    InvParts(w, 0);
    var s := w.store.searches[k];
    var i :| 0 <= i < |s.runIds| && s.runIds[i] == r;
    assert RungOk(w, s, i);
    hide Inv, SearchOk, RunsInv, StepFrom;
  }

  /** A step belongs to a run that has completed, so it is not the step of a stranded search. */
  lemma StrandedHasNoStep(w: World, r: nat, k: nat)
    requires Inv(w) && r in w.pending && r in w.store.searchRun && w.store.searchRun[r] == k && RunningSearch(w, k)
    ensures r == CurrentRun(w.store.searches[k]) && w.store.runs[r].status == Completed
  {
    PendingKnown(w, r);
    InvParts(w, 0);
    hide Inv, RunsInv, SearchesInv, RunOk, Live, RungOk;
    PendingIsLast(w, r);
  }

  lemma LeftStrands(w: World, e: Event, w': World, k: nat)
    requires Inv(w) && k in w.store.searches && Left(w, e, w', k) && RunningSearch(w, k)
    requires CancelledBy(w, e, w', CurrentRun(w.store.searches[k]))
    ensures Stranded(w', k) <==> (Stranded(w, k) && e != SearchStopped(k)) || Strands(w, e, k)
  {
    var r := CurrentRun(w.store.searches[k]);
    assert r in w.store.searches[k].runIds;
    if e.SearchStopped? && e.searchId in w.store.searches && r in w.store.searches[e.searchId].runIds {
      OwnRuns(w, k, e.searchId, r);
    }
    hide Inv, MeetsQueued, Homeless;
  }

  /** An operation leaves a search stranded if and only if it was stranded before and is not cancelled now, or the
      operation is one of the two that strand it. */
  lemma StrandsExactly(w: World, e: Event, w': World, k: nat)
    requires Inv(w) && Next(w, e, w') && k in w.store.searches
    ensures k in w'.store.searches
    ensures Stranded(w', k) <==> (Stranded(w, k) && e != SearchStopped(k)) || Strands(w, e, k)
  {
    NextLeaves(w, e, w', k);
    if w.store.searches[k].status == SearchRunning {
      RunningIsSearch(w, k);
      hide Inv, Next, Strands;
      if Left(w, e, w', k) {
        RunCancelledExactly(w, e, w', CurrentRun(w.store.searches[k]));
        hide CancelledBy, Left;
        LeftStrands(w, e, w', k);
      } else {
        hide Left;
        StrandedHasNoStep(w, e.finishedRun, k);
        StepStrandsNothing(w, e, k);
      }
    } else {
      hide Inv, Next;
    }
  }

  lemma StepStrandsNothing(w: World, e: Event, k: nat)
    requires e.SearchAdvanced?
    ensures !Strands(w, e, k)
  {
  }

  /** A search that was not there before was just created. */
  lemma NewSearches(w: World, e: Event, w': World, k: nat)
    requires Inv(w) && Next(w, e, w') && k !in w.store.searches && k in w'.store.searches
    ensures Climbed(w', k)
  {
    hide Inv, CreateSearch, AdvanceStore, CancelSearch, Linked, Evolves, Climbed;
    match e
    case SearchCreated(plan) => CreateLeaves(w, plan, w', k);
    case SearchAdvanced(run) => AdvanceLeaves(w, run, w', k);
    case SearchStopped(id) => StopAddsNone(w.store, id);
    case _ =>
      hide Next;
      NextEvolves(w, e, w');
      SameSearches(w, w');
  }

  lemma StopAddsNone(s: State, id: nat)
    ensures CancelSearch(s, id).searches.Keys == s.searches.Keys
  {
    hide CancelRuns;
    if id in s.searches {
      var marked := s.(searches := s.searches[id := s.searches[id].(status := SearchCancelled)]);
      CancelRunsLeaveSearches(marked, s.searches[id].runIds);
    }
  }

  /** A new search is not stranded. */
  lemma NewSearchIsFine(w: World, e: Event, w': World, k: nat)
    requires Inv(w) && Next(w, e, w') && k !in w.store.searches
    ensures !Stranded(w', k)
  {
    hide Inv, Next;
    if k in w'.store.searches { NewSearches(w, e, w', k); }
  }

  // ----- over whole histories

  /** Event `i` strands search `k`, and up to state `j` nobody cancels the search. */
  ghost predicate StrandedSince(trace: seq<World>, events: seq<Event>, i: nat, j: nat, k: nat)
    requires |trace| == |events| + 1
  {
    i < j <= |events| && Strands(trace[i], events[i], k) && forall m :: i < m < j ==> events[m] != SearchStopped(k)
  }

  /** Some event stranded the search for good, up to state `j`. */
  ghost predicate StrandedBefore(trace: seq<World>, events: seq<Event>, j: nat, k: nat)
    requires |trace| == |events| + 1
  {
    exists i: nat :: StrandedSince(trace, events, i, j, k)
  }

  /** A search is stranded if and only if one of the two operations stranded it earlier and it was not
      cancelled since. */
  lemma {:induction false} StrandedExactly(trace: seq<World>, events: seq<Event>, j: nat, k: nat)
    requires History(trace, events) && j < |trace|
    ensures Stranded(trace[j], k) <==> StrandedBefore(trace, events, j, k)
  {
    hide Inv, Next, Strands, Stranded;
    if j == 0 {
      StartsWithout(k);
    } else {
      var n := j - 1;
      StrandedExactly(trace, events, n, k);
      Reachable(trace, events, n);
      assert StepAt(trace, events, n);
      if k in trace[n].store.searches {
        StrandsExactly(trace[n], events[n], trace[j], k);
      } else {
        NewSearchIsFine(trace[n], events[n], trace[j], k);
        NotYetThere(trace[n], events[n], k);
      }
      SinceOneMore(trace, events, n, j, k);
    }
  }

  lemma StartsWithout(k: nat)
    ensures !Stranded(INITIAL, k)
  {
  }

  lemma NotYetThere(w: World, e: Event, k: nat)
    requires k !in w.store.searches
    ensures !Strands(w, e, k) && !Stranded(w, k)
  {
  }

  lemma SinceOneMore(trace: seq<World>, events: seq<Event>, n: nat, j: nat, k: nat)
    requires |trace| == |events| + 1 && n < |events| && j == n + 1
    ensures StrandedBefore(trace, events, j, k)
         <==> Strands(trace[n], events[n], k) || (StrandedBefore(trace, events, n, k) && events[n] != SearchStopped(k))
  {
    hide Strands;
    if Strands(trace[n], events[n], k) { assert StrandedSince(trace, events, n, j, k); }
    if events[n] != SearchStopped(k) && StrandedBefore(trace, events, n, k) {
      var i: nat :| StrandedSince(trace, events, i, n, k);
      assert StrandedSince(trace, events, i, j, k);
    }
    if StrandedBefore(trace, events, j, k) {
      var i: nat :| StrandedSince(trace, events, i, j, k);
      if i < n { assert StrandedSince(trace, events, i, n, k); }
    }
  }
}
