/** The controller's protocol: agents and operators drive the store one locked operation at a time, in any order.
    Between the report that completes a run and the step of its search, any other operation may happen
    (internal/controller/server.go, `completeShard`). An agent reports only shards it was handed, and each once
    (internal/agent/client.go, `RunOnce`). */
module Protocol {
  import opened Core
  import opened Folds
  import opened ShardMerge
  import opened Sweep
  import opened SweepProperties
  import opened StoreState

  /** The store, and what happened to it: the assignments handed out, the reports that came back, the completed runs
      whose search has not been advanced yet, and the order in which each completed run was merged. */
  datatype World = World(
    store: State, handed: map<nat, Assignment>, reports: map<nat, RunResult>, pending: set<nat>,
    merges: map<nat, seq<nat>>)

  datatype Event =
    | TargetCreated(target: Target)
    | TargetDeleted(targetId: nat)
    | RunCreated(config: RunConfig)
    | SearchCreated(plan: SearchConfig)
    | ShardsScanned(order: seq<nat>, now: int, claimed: Option<Assignment>)
    | ShardReported(shardId: nat, result: RunResult, visited: seq<nat>)
    | SearchAdvanced(finishedRun: nat)
    | RunStopped(runId: nat)
    | SearchStopped(searchId: nat)

  const INITIAL := World(EMPTY_STORE, map[], map[], {}, map[])

  /** One operation. A search is created with a start load between 1 and its maximum, as the controller validates. */
  ghost predicate Next(w: World, e: Event, w': World)
  {
    && Linked(w.store)
    && match e
       case TargetCreated(target) => w' == w.(store := CreateTarget(w.store, target))
       case TargetDeleted(id) => w' == w.(store := DeleteTarget(w.store, id).0)
       case RunCreated(config) => w' == w.(store := CreateRun(w.store, config))
       case SearchCreated(plan) => 1 <= plan.startLoad <= plan.maxLoad && w' == w.(store := CreateSearch(w.store, plan))
       case ShardsScanned(order, now, claimed) =>
         && Claims(w.store, order, now, w'.store, claimed)
         && w' == w.(store := w'.store,
                     handed := if claimed.Some? then w.handed[claimed.value.shard.id := claimed.value] else w.handed)
       case ShardReported(id, result, visited) => Reports(w, id, result, visited, w')
       case SearchAdvanced(run) =>
         run in w.pending && w' == w.(store := AdvanceStore(w.store, run), pending := w.pending - {run})
       case RunStopped(id) => w' == w.(store := CancelRun(w.store, id))
       case SearchStopped(id) => w' == w.(store := CancelSearch(w.store, id))
  }

  ghost predicate Reports(w: World, id: nat, result: RunResult, visited: seq<nat>, w': World)
    requires Linked(w.store)
  {
    && id in w.handed && id !in w.reports && id in w.store.shards
    && var runId := w.store.shards[id].runId;
       var after := CompleteShard(w.store, id, result, visited);
       && OrderOf(after, runId, visited) && runId in after.runs
       && var done := after.runs[runId].status == Completed;
          w' == World(after, w.handed, w.reports[id := result], if done then w.pending + {runId} else w.pending,
                      if done then w.merges[runId := visited] else w.merges)
  }

  // ----- what every operation keeps

  /** A shard belongs to its run's block of numbers, and its status says who has it. */
  ghost predicate ShardOk(w: World, id: nat)
    requires Linked(w.store) && id in w.store.shards
  {
    var shard := w.store.shards[id];
    var run := w.store.runs[shard.runId];
    InBlock(run.id, run.config.ShardCount(), id) && shard.index == id - run.id - 1 && StatusOk(w, id)
  }

  ghost predicate StatusOk(w: World, id: nat)
    requires Linked(w.store) && id in w.store.shards
  {
    var shard := w.store.shards[id];
    var run := w.store.runs[shard.runId];
    && (if id in w.handed then shard.status == (if id in w.reports then Completed else Running)
        else shard.status == Queued || shard.status == Cancelled)
    && (run.status == Completed ==> shard.status == Completed)
    && (run.status == Queued ==> shard.status == Queued)
    && (run.status == Running ==> shard.status != Cancelled)
  }

  /** What an agent was handed is that shard of the run, with its share of the load. */
  ghost predicate HandedOk(w: World, id: nat)
    requires Linked(w.store) && id in w.handed
  {
    && id in w.store.shards
    && var shard, a := w.store.shards[id], w.handed[id];
       && a.shard.id == id && a.shard.runId == a.run.id == shard.runId && a.shard.index == shard.index
       && a.run.config == ShardConfig(w.store.runs[shard.runId].config, a.run.id, id, shard.index)
  }

  /** Until its run completes, a report is filed as it came. */
  ghost predicate ReportOk(w: World, id: nat)
    requires Linked(w.store) && id in w.reports
  {
    && id in w.handed && id in w.store.shards
    && (w.store.runs[w.store.shards[id].runId].status != Completed ==>
          id in w.store.shardResults && w.store.shardResults[id] == w.reports[id])
  }

  /** All the shards of a run are there; a running one waits for some of them, a completed one holds their merge. */
  ghost predicate RunOk(w: World, r: nat)
    requires Linked(w.store) && r in w.store.runs
  {
    var run := w.store.runs[r];
    && r + run.config.ShardCount() <= w.store.nextId
    && (forall id :: InBlock(r, run.config.ShardCount(), id) ==> id in w.store.shards && w.store.shards[id].runId == r)
    && (run.status == Running ==> Waiting(w.store, r))
    && (run.status == Completed ==> MergedOk(w, r))
    && (r in w.pending ==> run.status == Completed)
  }

  ghost predicate Waiting(s: State, r: nat)
  {
    exists id :: id in s.shards && s.shards[id].runId == r && s.shards[id].status != Completed
  }

  ghost predicate MergedOk(w: World, r: nat)
    requires r in w.store.runs
  {
    && r in w.merges && OrderOf(w.store, r, w.merges[r])
    && (forall id :: id in w.merges[r] ==> id in w.reports)
    && w.store.runs[r].result == Merged(w.store.runs[r].config, Map(ResultOf(w.reports), w.merges[r]))
  }

  /** A search's runs, steps and ladder match index by index. */
  ghost predicate SearchOk(w: World, k: nat)
    requires Linked(w.store) && k in w.store.searches
  {
    var s := w.store.searches[k];
    && k <= w.store.nextId
    && |s.steps| <= |s.runIds| <= |s.ladder| && Distinct(s.runIds)
    && (forall i :: 0 <= i < |s.runIds| ==> RungOk(w, s, i))
    && match s.status
       case SearchRunning => Live(s) && |s.runIds| == |s.steps| + 1
       case SearchCompleted => Finished(s) && |s.runIds| == |s.steps|
       case SearchCancelled =>
         && |s.runIds| <= |s.steps| + 1
         && forall i :: 0 <= i < |s.runIds| && s.runIds[i] in w.store.runs ==> !w.store.runs[s.runIds[i]].Active()
  }

  /** Rung `i` of a search was queued at its load; once it is a step it is a completed run that holds
      what the step says. */
  ghost predicate RungOk(w: World, s: AutoSearch, i: nat)
    requires i < |s.runIds|
  {
    var r := s.runIds[i];
    && r in w.store.runs && r in w.store.searchRun && w.store.searchRun[r] == s.id
    && i < |s.ladder| && w.store.runs[r].config.Load() == s.ladder[i]
    && if i < |s.steps| then
         && w.store.runs[r].status == Completed && r !in w.pending
         && s.steps[i] == StepFrom(s.ladder[i], w.store.runs[r])
       else w.store.runs[r].status == Completed ==> r in w.pending || s.status != SearchRunning
  }

  /** A run of a search is in that search's list. */
  ghost predicate ListedOk(w: World, r: nat)
    requires Linked(w.store) && r in w.store.searchRun
  {
    r in w.store.searches[w.store.searchRun[r]].runIds && w.store.runs[r].searchId == Some(w.store.searchRun[r])
  }

  ghost predicate RunsInv(w: World)
  {
    && Linked(w.store)
    && (forall id :: id in w.store.shards ==> ShardOk(w, id))
    && (forall id :: id in w.handed ==> HandedOk(w, id))
    && (forall id :: id in w.reports ==> ReportOk(w, id))
    && (forall r :: r in w.store.runs ==> RunOk(w, r))
    && (forall r :: r in w.pending ==> r in w.store.runs)
  }

  ghost predicate SearchesInv(w: World)
    requires Linked(w.store)
  {
    && (forall k :: k in w.store.searches ==> SearchOk(w, k))
    && (forall r :: r in w.store.searchRun ==> ListedOk(w, r))
  }

  ghost predicate Inv(w: World) { RunsInv(w) && SearchesInv(w) }
}
