/** What the protocol's invariant means for whole runs of the system. */
module ProtocolTheorems {
  import opened Core
  import opened Sweep
  import opened SweepProperties
  import opened StoreState
  import opened Protocol
  import opened ProtocolRuns
  import opened ProtocolReports
  import opened ProtocolSearches

  /** A run of the system: it starts with an empty store and takes one operation after the other. */
  ghost predicate History(trace: seq<World>, events: seq<Event>)
  {
    |trace| == |events| + 1 && trace[0] == INITIAL && forall i :: 0 <= i < |events| ==> StepAt(trace, events, i)
  }

  ghost predicate StepAt(trace: seq<World>, events: seq<Event>, i: nat)
    requires |trace| == |events| + 1 && i < |events|
  {
    Next(trace[i], events[i], trace[i + 1])
  }

  lemma InitialInv()
    ensures Inv(INITIAL)
  {
  }

  lemma {:induction false} Reachable(trace: seq<World>, events: seq<Event>, i: nat)
    requires History(trace, events) && i < |trace|
    ensures Inv(trace[i])
  {
    hide Inv, Next;
    if i == 0 {
      InitialInv();
    } else {
      Reachable(trace, events, i - 1);
      assert StepAt(trace, events, i - 1);
      NextKeepsInv(trace[i - 1], events[i - 1], trace[i]);
    }
  }

  // ----- what never changes back

  /** Runs keep their configuration and, once ended, everything; assignments stay; a cancelled search stays cancelled
      with the same runs. */
  ghost predicate Keeps(w: World, w': World)
  {
    && (forall r :: r in w.store.runs ==> RunKept(w, w', r))
    && (forall id :: id in w.handed ==> id in w'.handed && w'.handed[id] == w.handed[id])
    && (forall k :: k in w.store.searches && w.store.searches[k].status == SearchCancelled ==>
          k in w'.store.searches && w'.store.searches[k] == w.store.searches[k])
  }

  ghost predicate RunKept(w: World, w': World, r: nat)
    requires r in w.store.runs
  {
    && r in w'.store.runs
    && w'.store.runs[r].config == w.store.runs[r].config
    && (!w.store.runs[r].Active() ==> w'.store.runs[r] == w.store.runs[r])
  }

  lemma EvolvesKeeps(w: World, w': World)
    requires Evolves(w, w')
    requires HandedGrows(w, w')
    ensures Keeps(w, w')
  {
    forall r | r in w.store.runs ensures RunKept(w, w', r) { assert RunEvolves(w, w', r); }
  }

  lemma QueueKeeps(w: World, w': World, s: AutoSearch)
    requires RungQueued(w, w', s) && w'.handed == w.handed
    requires s.id in w.store.searches ==> w.store.searches[s.id].status != SearchCancelled
    ensures Keeps(w, w')
  {
    hide Linked;
  }

  lemma CreateSearchKeeps(w: World, plan: SearchConfig)
    requires Inv(w)
    ensures Keeps(w, w.(store := CreateSearch(w.store, plan)))
  {
    hide Inv, RunsInv, SearchesInvExcept, QueueSearchRun, RungQueued, Keeps, Linked, Evolves, CreateSearch, NewSearch;
    var w0, w' := w.(store := w.store.(nextId := w.store.nextId + 1)), w.(store := CreateSearch(w.store, plan));
    CreateIsQueue(w.store, plan);
    InvParts(w, 0);
    FreshSearch(w);
    TargetsDoNotMatter(w, w0);
    QueueIsRungQueued(w0, w', NewSearch(w.store, plan));
    QueueKeeps(w0, w', NewSearch(w.store, plan));
    SameKeeps(w, w0, w');
  }

  lemma SameKeeps(w: World, w0: World, w': World)
    requires w0.store.runs == w.store.runs && w0.handed == w.handed && w0.store.searches == w.store.searches
    requires Keeps(w0, w')
    ensures Keeps(w, w')
  {
    forall r | r in w.store.runs ensures RunKept(w, w', r) { assert RunKept(w0, w', r); }
  }

  lemma ClimbKeeps(w: World, w': World, r: nat, s: AutoSearch, after: AutoSearch)
    requires RunsInv(w) && Stepped(w, r, s, after) && s.status == SearchRunning
    requires w' == w.(store := QueueSearchRun(w.store, after, after.nextLoad), pending := w.pending - {r})
    ensures Keeps(w, w')
  {
    hide RunsInv, QueueSearchRun, RungOk, Distinct, Linked;
    QueueIsRungQueued(w, w', after);
    hide RungQueued;
    QueueKeeps(w, w', after);
  }

  lemma FinishKeeps(w: World, w': World, r: nat, s: AutoSearch, after: AutoSearch)
    requires Stepped(w, r, s, after) && s.status == SearchRunning
    requires w' == w.(store := w.store.(searches := w.store.searches[s.id := after]), pending := w.pending - {r})
    ensures Keeps(w, w')
  {
    hide RungOk, Distinct, Linked;
  }

  lemma PendingKnown(w: World, r: nat)
    requires Inv(w) && r in w.pending
    ensures r in w.store.runs && RunOk(w, r) && SearchesInv(w)
  {
    hide ShardOk, HandedOk, ReportOk, RunOk, SearchesInv;
  }

  lemma AdvanceShape(s: State, r: nat, search: AutoSearch, after: AutoSearch, next: Option<int>)
    requires Linked(s) && r in s.searchRun && search == s.searches[s.searchRun[r]] && search.status == SearchRunning
    requires (after, next) == Advance(search, s.runs[r])
    ensures AdvanceStore(s, r) == if next.Some? then QueueSearchRun(s, after, next.value)
                                  else s.(searches := s.searches[search.id := after])
  {
    hide Advance, QueueSearchRun;
  }

  /** What the step of a running search does to the store: it queues the next rung, or files the finished search. */
  lemma AdvanceOutcome(w: World, r: nat, w': World) returns (s: AutoSearch, after: AutoSearch)
    requires Inv(w) && r in w.pending
    requires w' == w.(store := AdvanceStore(w.store, r), pending := w.pending - {r})
    requires r in w.store.searchRun && w.store.searchRun[r] in w.store.searches
    requires w.store.searches[w.store.searchRun[r]].status == SearchRunning
    ensures s == w.store.searches[w.store.searchRun[r]] && s.id == w.store.searchRun[r] && Stepped(w, r, s, after)
    ensures || (after.status == SearchRunning && w'.store == QueueSearchRun(w.store, after, after.nextLoad))
            || (after.status == SearchCompleted && w'.store == w.store.(searches := w.store.searches[s.id := after]))
  {
    InvParts(w, 0);
    PendingKnown(w, r);
    hide Inv, RunsInv, SearchesInv, SearchesInvExcept, Advance, Live, Finished, Stepped, QueueSearchRun, RunOk;
    s := w.store.searches[w.store.searchRun[r]];
    var (after', next) := Advance(s, w.store.runs[r]);
    after := after';
    AdvanceShape(w.store, r, s, after, next);
    hide AdvanceStore;
    PendingSteps(w, r);
    SteppedId(w, r, s, after);
  }

  lemma NothingToAdvance(s: State, r: nat)
    requires Linked(s)
    requires r in s.searchRun ==> s.searches[s.searchRun[r]].status != SearchRunning
    ensures AdvanceStore(s, r) == s
  {
    hide Advance, QueueSearchRun;
  }

  lemma SameStoreKeeps(w: World, w': World)
    requires w'.store == w.store && w'.handed == w.handed
    ensures Keeps(w, w')
  {
  }

  lemma AdvanceKeeps(w: World, r: nat, w': World)
    requires Inv(w) && r in w.pending
    requires w' == w.(store := AdvanceStore(w.store, r), pending := w.pending - {r})
    ensures Keeps(w, w')
  {
    InvParts(w, 0);
    hide Inv, RunsInv, SearchesInvExcept, AdvanceStore, Stepped, QueueSearchRun, Keeps;
    if r in w.store.searchRun && w.store.searches[w.store.searchRun[r]].status == SearchRunning {
      var s, after := AdvanceOutcome(w, r, w');
      hide Linked;
      if after.status == SearchRunning {
        ClimbKeeps(w, w', r, s, after);
      } else {
        FinishKeeps(w, w', r, s, after);
      }
    } else {
      NothingToAdvance(w.store, r);
      SameStoreKeeps(w, w');
    }
  }

  lemma CancelSearchKeeps(w: World, k: nat)
    requires Inv(w)
    ensures Keeps(w, w.(store := CancelSearch(w.store, k)))
  {
    hide Inv, RunsInv, SearchesInvExcept, CancelRuns, SearchAside, Linked, Keeps, Evolves, HandedGrows;
    var w' := w.(store := CancelSearch(w.store, k));
    InvParts(w, k);
    RunsLinked(w);
    if k in w.store.searches {
      var w1 := Marked(w, k);
      MarkedAside(w, k);
      SearchesDoNotMatter(w, w1);
      CancelRunsKeepRuns(w1, w.store.searches[k].runIds);
      assert w1.(store := CancelRuns(w1.store, w.store.searches[k].runIds)) == w';
      HandedSame(w1, w');
      EvolvesKeeps(w1, w');
      MarkedKeeps(w, k);
      KeepsTransitive(w, w1, w');
    } else {
      SameStoreKeeps(w, w');
    }
  }

  lemma MarkedKeeps(w: World, k: nat)
    requires k in w.store.searches
    ensures Keeps(w, Marked(w, k))
  {
  }

  lemma KeepsTransitive(a: World, b: World, c: World)
    requires Keeps(a, b) && Keeps(b, c)
    ensures Keeps(a, c)
  {
    forall r | r in a.store.runs ensures RunKept(a, c, r) { assert RunKept(a, b, r) && RunKept(b, c, r); }
  }

  lemma NextKeeps(w: World, e: Event, w': World)
    requires Inv(w) && Next(w, e, w')
    ensures Keeps(w, w')
  {
    hide Inv, Keeps, Evolves, HandedGrows, CreateSearch, CancelSearch, AdvanceStore;
    match e
    case SearchCreated(plan) => CreateSearchKeeps(w, plan);
    case SearchAdvanced(run) => AdvanceKeeps(w, run, w');
    case SearchStopped(id) => CancelSearchKeeps(w, id);
    case _ =>
      NextEvolves(w, e, w');
      EvolvesKeeps(w, w');
  }

  lemma {:induction false} HistoryKeeps(trace: seq<World>, events: seq<Event>, i: nat, j: nat)
    requires History(trace, events) && i <= j < |trace|
    ensures Keeps(trace[i], trace[j])
    decreases j - i
  {
    hide Inv, Next;
    if i < j {
      HistoryKeeps(trace, events, i, j - 1);
      Reachable(trace, events, j - 1);
      assert StepAt(trace, events, j - 1);
      NextKeeps(trace[j - 1], events[j - 1], trace[j]);
      KeepsTransitive(trace[i], trace[j - 1], trace[j]);
    }
  }

  // ----- claims

  /** An ended run never changes again: its status, its result and all the rest are final. */
  lemma EndedRunsAreFinal(trace: seq<World>, events: seq<Event>, i: nat, j: nat, r: nat)
    requires History(trace, events) && i <= j < |trace|
    requires r in trace[i].store.runs && !trace[i].store.runs[r].Active()
    ensures r in trace[j].store.runs && trace[j].store.runs[r] == trace[i].store.runs[r]
  {
    HistoryKeeps(trace, events, i, j);
    assert RunKept(trace[i], trace[j], r);
  }

  /** What is handed out is a shard of a run that was active and now runs, on a target that exists, and
      it is on record. */
  lemma ClaimIsSafe(w: World, order: seq<nat>, now: int, a: Assignment, w': World)
    requires Inv(w) && Next(w, ShardsScanned(order, now, Some(a)), w')
    ensures a.shard.id !in w.handed && a.shard.id in w'.handed && w'.handed[a.shard.id] == a
    ensures a.shard.runId == a.run.id && a.run.id in w.store.runs && w.store.runs[a.run.id].Active()
    ensures a.run.status == Running && a.run.id in w'.store.runs && w'.store.runs[a.run.id].status == Running
    ensures var target := a.run.config.targetId; target in w.store.targets && a.target == w.store.targets[target]
  {
    hide Inv, RunsInv, SearchesInvExcept, SkipShards, Claims, Evolves, TakeShard, Claimable, Linked, Passed;
    InvParts(w, 0);
    RunsLinked(w);
    ScanKeepsRuns(w, order, now, Some(a), w');
    var n := |order| - 1;
    ClaimSplit(w.store, order, now, w'.store, a);
    SkipsKeepRuns(w, order[..n]);
    SkipsKeepTargets(w.store, order[..n]);
    SkipsKeepRunKeys(w.store, order[..n]);
    var mid := w.(store := SkipShards(w.store, order[..n]));
    TakenFacts(mid.store, order[n], now);
    EvolvesActive(w, mid, a.run.id);
  }

  lemma TakenFacts(s: State, id: nat, now: int)
    requires Linked(s) && id in s.shards && Claimable(s, id)
    ensures var (s', a) := TakeShard(s, id, now);
            && a.shard.runId == a.run.id && a.run.id in s.runs && s.runs[a.run.id].Active()
            && a.run.status == Running && a.run.id in s'.runs && s'.runs[a.run.id].status == Running
            && a.run.config.targetId in s.targets && a.target == s.targets[a.run.config.targetId]
  {
  }

  lemma EvolvesActive(w: World, w': World, r: nat)
    requires Evolves(w, w') && r in w.store.runs && r in w'.store.runs && w'.store.runs[r].Active()
    ensures w.store.runs[r].Active()
  {
    assert RunEvolves(w, w', r);
  }

  lemma {:induction false} SkipsKeepTargets(s: State, order: seq<nat>)
    requires Linked(s) && forall i :: 0 <= i < |order| ==> order[i] in s.shards
    ensures SkipShards(s, order).targets == s.targets
  {
    hide Linked;
    if order != [] { SkipsKeepTargets(s, order[..|order| - 1]); }
  }

  lemma SkipKeepsRunKeys(s: State, id: nat)
    requires Linked(s) && id in s.shards
    ensures SkipShard(s, id).runs.Keys == s.runs.Keys
  {
  }

  lemma {:induction false} SkipsKeepRunKeys(s: State, order: seq<nat>)
    requires Linked(s) && forall i :: 0 <= i < |order| ==> order[i] in s.shards
    ensures SkipShards(s, order).runs.Keys == s.runs.Keys
  {
    hide Linked, SkipShard;
    if order != [] {
      var n := |order| - 1;
      SkipsKeepRunKeys(s, order[..n]);
      SkipKeepsRunKeys(SkipShards(s, order[..n]), order[n]);
    }
  }

  /** No shard is ever handed out twice. */
  lemma HandedOutOnce(trace: seq<World>, events: seq<Event>, i: nat, j: nat, a: Assignment, b: Assignment)
    requires History(trace, events) && i < j < |events|
    requires events[i].ShardsScanned? && events[i].claimed == Some(a)
    requires events[j].ShardsScanned? && events[j].claimed == Some(b)
    ensures a.shard.id != b.shard.id
  {
    hide Inv, Keeps, Next;
    Reachable(trace, events, j);
    HistoryKeeps(trace, events, i + 1, j);
    assert StepAt(trace, events, i) && StepAt(trace, events, j);
    ClaimIsFiled(trace[i], events[i], a, trace[i + 1]);
    ClaimIsNew(trace[j], events[j], b, trace[j + 1]);
    HandedStays(trace[i + 1], trace[j], a.shard.id);
  }

  lemma ClaimIsFiled(w: World, e: Event, a: Assignment, w': World)
    requires Next(w, e, w') && e.ShardsScanned? && e.claimed == Some(a)
    ensures a.shard.id in w'.handed
  {
    hide Linked, Claims;
  }

  lemma ClaimIsNew(w: World, e: Event, a: Assignment, w': World)
    requires Inv(w) && Next(w, e, w') && e.ShardsScanned? && e.claimed == Some(a)
    ensures a.shard.id !in w.handed
  {
    assert e == ShardsScanned(e.order, e.now, Some(a));
    InvParts(w, 0);
    hide Inv, RunsInv;
    ScanKeepsRuns(w, e.order, e.now, Some(a), w');
  }

  lemma HandedStays(w: World, w': World, id: nat)
    requires Keeps(w, w') && id in w.handed
    ensures id in w'.handed
  {
  }

  lemma SkipLeavesNotQueued(s: State, id: nat, k: nat)
    requires Linked(s) && id in s.shards && k in s.shards && !Claimable(s, id)
    requires k == id || s.shards[k].status != Queued
    ensures k in SkipShard(s, id).shards && SkipShard(s, id).shards[k].status != Queued
  {
  }

  lemma {:induction false} SkippedIsNotQueued(s: State, order: seq<nat>, i: nat)
    requires Linked(s) && AllPassed(s, order) && i < |order|
    ensures order[i] in SkipShards(s, order).shards && SkipShards(s, order).shards[order[i]].status != Queued
  {
    hide SkipShard, Linked, Claimable, Passed;
    var n := |order| - 1;
    ScanPrefix(s, order);
    if i < n {
      SkippedIsNotQueued(s, order[..n], i);
    }
    SkipLeavesNotQueued(SkipShards(s, order[..n]), order[n], order[i]);
  }

  /** When a scan finds nothing to hand out, no shard is left queued. */
  lemma NothingLeftQueued(w: World, order: seq<nat>, now: int, w': World)
    requires Inv(w) && Next(w, ShardsScanned(order, now, None), w')
    ensures forall id :: id in w'.store.shards ==> w'.store.shards[id].status != Queued
  {
    hide Inv, SkipShards, Claims, AllPassed, Linked;
    AllScanned(w, order, now, w');
    forall id | id in w'.store.shards ensures w'.store.shards[id].status != Queued {
      var i :| 0 <= i < |order| && order[i] == id;
      SkippedIsNotQueued(w.store, order, i);
    }
  }

  lemma AllScanned(w: World, order: seq<nat>, now: int, w': World)
    requires Next(w, ShardsScanned(order, now, None), w')
    ensures Linked(w.store) && AllPassed(w.store, order) && w'.store == SkipShards(w.store, order)
    ensures forall id :: id in w'.store.shards ==> id in order
  {
    hide Passed, Linked;
  }

  // ----- progress

  /** A queued shard of an active run on a known target can be claimed: the scan that comes to it first hands it out. */
  lemma ClaimableIsClaimed(w: World, id: nat, now: int) returns (a: Assignment, w': World)
    requires Inv(w) && id in w.store.shards && Claimable(w.store, id)
    ensures Next(w, ShardsScanned([id], now, Some(a)), w') && a.shard.id == id
    ensures (w'.store, a) == TakeShard(w.store, id, now) && w' == w.(store := w'.store, handed := w.handed[id := a])
  {
    hide Inv, RunsInv, SearchesInvExcept, Claimable, TakeShard, SkipShards, Claims, Linked, AllPassed;
    InvParts(w, 0);
    RunsLinked(w);
    var (s, taken) := TakeShard(w.store, id, now);
    a, w' := taken, w.(store := s, handed := w.handed[taken.shard.id := taken]);
    NothingPassed(w.store);
    ClaimedAt(w.store, [], id, now);
    assert [] + [id] == [id];
    TakenIs(w.store, id, now);
  }

  lemma NothingPassed(s: State)
    requires Linked(s)
    ensures AllPassed(s, []) && SkipShards(s, []) == s
  {
    hide Linked;
  }

  lemma TakenIs(s: State, id: nat, now: int)
    requires Linked(s) && id in s.shards && Claimable(s, id)
    ensures TakeShard(s, id, now).1.shard.id == id
  {
  }

  /** Every other shard of the run has reported. */
  ghost predicate OthersReported(s: State, id: nat)
    requires id in s.shards
  {
    forall k :: k in s.shards && s.shards[k].runId == s.shards[id].runId && k != id ==> s.shards[k].status == Completed
  }

  lemma FiledCompletes(s: State, id: nat, result: RunResult)
    requires Linked(s) && id in s.shards
    ensures Completes(FileReport(s, id, result), s.shards[id].runId)
       <==> s.runs[s.shards[id].runId].status != Cancelled && OthersReported(s, id)
  {
    var filed, r := FileReport(s, id, result), s.shards[id].runId;
    assert forall k :: k in ShardsOf(filed, r) <==> k in s.shards && s.shards[k].runId == r;
    assert forall k :: k in s.shards && k != id ==> filed.shards[k] == s.shards[k];
  }

  /** A report completes its run exactly when it is the last one missing and the run was not cancelled; before that the
      runs stay as they are. */
  lemma CompletesWithLastReport(w: World, id: nat, result: RunResult, visited: seq<nat>, w': World)
    requires Inv(w) && Next(w, ShardReported(id, result, visited), w')
    ensures id in w.store.shards && w.store.shards[id].runId in w.store.runs
        && w.store.shards[id].runId in w'.store.runs
    ensures var r := w.store.shards[id].runId;
            && (w'.store.runs[r].status == Completed
                <==> w.store.runs[r].status != Cancelled && OthersReported(w.store, id))
            && (w'.store.runs[r].status != Completed ==> w'.store.runs == w.store.runs)
  {
    hide Inv, RunsInv, SearchesInvExcept, Completes, OthersReported, OrderOf, MergeRun, Linked, CompleteShard;
    InvParts(w, 0);
    RunsLinked(w);
    var r := w.store.shards[id].runId;
    ReportFindsRun(w, id);
    ReportCases(w, id, result, visited, w');
    FiledCompletes(w.store, id, result);
    FiledLinks(w.store, id, result);
    MergeShape(FileReport(w.store, id, result), r, visited);
  }
}
