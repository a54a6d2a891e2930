/** The in-memory store of the controller (internal/store/store.go, `MemoryStore`). Every method runs under the store's
    lock, so each is one atomic step; each is proved to do what its function in StoreState says. */
module Store {
  import opened Core
  import opened Folds
  import opened Names
  import opened ShardMerge
  import opened Sweep
  import StoreState

  class MemoryStore {
    var nextId: nat
    var targets: map<nat, Target>
    var runs: map<nat, Run>
    var searches: map<nat, AutoSearch>
    var searchRun: map<nat, nat>
    var shards: map<nat, Shard>
    var shardResults: map<nat, RunResult>

    ghost function Value(): StoreState.State
      reads this
    {
      StoreState.State(nextId, targets, runs, searches, searchRun, shards, shardResults)
    }

    ghost predicate Valid()
      reads this
    {
      StoreState.Linked(Value())
    }

    constructor ()
      ensures Valid() && Value() == StoreState.EMPTY_STORE
    {
      nextId, targets, runs, searches, searchRun, shards, shardResults := 0, map[], map[], map[], map[], map[], map[];
    }

    method CreateTarget(target: Target) returns (created: Target)
      requires Valid()
      modifies this
      ensures Valid()
      ensures Value() == StoreState.CreateTarget(old(Value()), target)
      ensures created.id in targets && targets[created.id] == created
    {
      nextId := nextId + 1;
      created := target.(id := nextId);
      targets := targets[created.id := created];
    }

    method DeleteTarget(id: nat) returns (result: StoreState.DeleteResult)
      requires Valid()
      modifies this
      ensures Valid()
      ensures (Value(), result) == StoreState.DeleteTarget(old(Value()), id)
    {
      if id !in targets { return StoreState.NotFound; }
      var rest := runs.Keys;
      while exists r :: r in rest
        modifies {}
        invariant rest <= runs.Keys
        invariant forall r :: r in runs && r !in rest ==> !(runs[r].config.targetId == id && runs[r].Active())
        decreases |rest|
      {
        var r :| r in rest;
        if runs[r].config.targetId == id && runs[r].Active() { return StoreState.InUse; }
        rest := rest - {r};
      }
      targets := targets - {id};
      return StoreState.Deleted;
    }

    method QueueShards(run: Run)
      requires run.id == nextId
      modifies this`nextId, this`shards
      ensures nextId == run.id + run.config.ShardCount()
      ensures shards == old(shards) + StoreState.NewShards(run.id, run.config.ShardCount())
    {
      var count := run.config.shards;
      if count < 1 { count := 1; }
      assert StoreState.NewShards(run.id, 0) == map[];
      for i := 0 to count
        invariant nextId == run.id + i && shards == old(shards) + StoreState.NewShards(run.id, i)
      {
        nextId := nextId + 1;
        var shard := Shard(nextId, run.id, Queued, i);
        assert StoreState.NewShards(run.id, i + 1) == StoreState.NewShards(run.id, i)[shard.id := shard];
        shards := shards[shard.id := shard];
      }
    }

    /** CreateRun, and the first half of queueSearchRunLocked. */
    method QueueRun(config: RunConfig, searchId: Option<nat>) returns (run: Run)
      requires Valid()
      modifies this`nextId, this`runs, this`shards
      ensures Valid() && Value() == StoreState.QueueRun(old(Value()), config, searchId)
      ensures run == StoreState.NewRun(old(Value()), config, searchId)
    {
      hide StoreState.Linked, StoreState.NewShards, RunName;
      StoreState.QueueKeepsLinks(Value(), config, searchId);
      nextId := nextId + 1;
      run := Run(nextId, Queued, searchId, config, NO_RESULT, 0);
      run := run.(config := run.config.(workloadId := RunName(run.id)));
      runs := runs[run.id := run];
      QueueShards(run);
    }

    method CreateRun(config: RunConfig) returns (run: Run)
      requires Valid()
      modifies this
      ensures Valid() && Value() == StoreState.CreateRun(old(Value()), config)
      ensures run == StoreState.NewRun(old(Value()), config, None)
    {
      run := QueueRun(config, None);
    }

    /** Queues the run and files the search with the run's ID added, which its callers do right after. */
    method QueueSearchRun(search: AutoSearch, load: int) returns (queued: AutoSearch)
      requires Valid()
      modifies this
      ensures Valid() && Value() == StoreState.QueueSearchRun(old(Value()), search, load)
      ensures queued == search.(runIds := search.runIds + [old(nextId) + 1])
    {
      hide StoreState.Linked, StoreState.QueueRun;
      StoreState.QueueSearchKeepsLinks(Value(), search, load);
      var config := search.config.run;
      if config.mode == RPS {
        config := config.(rps := load);
      } else {
        config := config.(vus := load);
      }
      var run := QueueRun(config, Some(search.id));
      queued := search.(runIds := search.runIds + [run.id]);
      searchRun := searchRun[run.id := search.id];
      searches := searches[search.id := queued];
    }

    method CreateSearch(config: SearchConfig) returns (search: AutoSearch)
      requires Valid()
      modifies this
      ensures Valid() && Value() == StoreState.CreateSearch(old(Value()), config)
      ensures search.id in searches && searches[search.id] == search
    {
      nextId := nextId + 1;
      var ladder := SweepLadder(config.startLoad, config.maxLoad);
      search := AutoSearch(nextId, SearchRunning, config, [], config.startLoad, 0, 0, 0, ladder, [], 0);
      search := QueueSearchRun(search, config.startLoad);
    }

    method CancelRun(id: nat) returns (run: Option<Run>)
      requires Valid()
      modifies this`runs, this`shards
      ensures Valid() && Value() == StoreState.CancelRun(old(Value()), id)
      ensures run == if id in runs then Some(runs[id]) else None
    {
      hide StoreState.Linked, StoreState.CancelShards;
      StoreState.CancelKeepsLinks(Value(), id);
      if id !in runs { return None; }
      if runs[id].status != Queued && runs[id].status != Running { return Some(runs[id]); }
      runs := runs[id := runs[id].(status := Cancelled)];
      CancelShards(id);
      return Some(runs[id]);
    }

    method CancelShards(runId: nat)
      modifies this`shards
      ensures shards == StoreState.CancelShards(old(shards), runId)
    {
      var rest := shards.Keys;
      while exists k :: k in rest
        invariant rest <= shards.Keys == old(shards).Keys
        invariant forall k :: k in rest ==> shards[k] == old(shards)[k]
        invariant forall k :: k in shards && k !in rest ==>
                    shards[k] == if old(shards)[k].runId == runId then StoreState.CancelShard(old(shards)[k])
                                 else old(shards)[k]
        decreases |rest|
      {
        var k :| k in rest;
        if shards[k].runId == runId && shards[k].status == Queued {
          shards := shards[k := shards[k].(status := Cancelled)];
        }
        rest := rest - {k};
      }
    }

    method CancelSearch(id: nat) returns (search: Option<AutoSearch>)
      requires Valid()
      modifies this
      ensures Valid() && Value() == StoreState.CancelSearch(old(Value()), id)
      ensures search == if id in searches then Some(searches[id]) else None
    {
      if id !in searches { return None; }
      var cancelled := searches[id].(status := SearchCancelled);
      searches := searches[id := cancelled];
      ghost var before := Value();
      var ids := cancelled.runIds;
      for i := 0 to |ids|
        invariant Valid() && Value() == StoreState.CancelRuns(before, ids[..i])
        invariant searches == before.searches
      {
        assert ids[..i + 1][..i] == ids[..i];
        var run := CancelRun(ids[i]);
      }
      assert ids[..|ids|] == ids;
      return Some(cancelled);
    }

    /** One shard of the scan that cannot be handed out. */
    method PassShard(id: nat)
      requires Valid() && id in shards && !StoreState.Claimable(Value(), id)
      modifies this`runs, this`shards
      ensures Valid() && Value() == StoreState.SkipShard(old(Value()), id) && shards.Keys == old(shards).Keys
    {
      var shard := shards[id];
      if shard.status != Queued { return; }
      var run := runs[shard.runId];
      shards := shards[id := shard.(status := Cancelled)];
      if run.status != Queued && run.status != Running { return; }
      runs := runs[run.id := run.(status := Cancelled)];
    }

    method HandOut(id: nat, now: int) returns (assignment: Assignment)
      requires Valid() && id in shards && StoreState.Claimable(Value(), id)
      modifies this`runs, this`shards
      ensures Valid() && (Value(), assignment) == StoreState.TakeShard(old(Value()), id, now)
    {
      hide TruncDiv, TruncMod, Decimal;
      var shard := shards[id].(status := Running);
      shards := shards[id := shard];
      var run := runs[shard.runId].(status := Running);
      if run.startedUnix == 0 { run := run.(startedUnix := now); }
      runs := runs[run.id := run];
      var target := targets[run.config.targetId];
      var config := run.config.(workloadId := RunName(run.id) + "-" + ShardName(shard.id));
      var count := config.shards;
      if count < 1 { count := 1; }
      if config.mode == VU {
        var base, extra := TruncDiv(config.vus, count), TruncMod(config.vus, count);
        config := config.(vus := base);
        if shard.index < extra { config := config.(vus := config.vus + 1); }
      } else {
        var base, extra := TruncDiv(config.rps, count), TruncMod(config.rps, count);
        config := config.(rps := base);
        if shard.index < extra { config := config.(rps := config.rps + 1); }
      }
      assignment := Assignment(run.(config := config), target, shard);
    }

    method ClaimRun(now: int) returns (claimed: Option<Assignment>, ghost order: seq<nat>)
      requires Valid()
      modifies this`runs, this`shards
      ensures Valid() && StoreState.Claims(old(Value()), order, now, Value(), claimed)
    {
      hide StoreState.Scanning, StoreState.SkipShard, StoreState.TakeShard, StoreState.Claims;
      order := [];
      ghost var before := Value();
      var rest := shards.Keys;
      StoreState.ScanBegins(before);
      while exists id :: id in rest
        invariant Valid() && rest <= shards.Keys
        invariant StoreState.Scanning(before, order, rest, Value())
        decreases |rest|
      {
        var id :| id in rest;
        var run := runs[shards[id].runId];
        if shards[id].status == Queued && run.Active() && run.config.targetId in targets {
          StoreState.ScanClaims(before, order, rest, Value(), id, now);
          var assignment := HandOut(id, now);
          return Some(assignment), order + [id];
        }
        StoreState.ScanPasses(before, order, rest, Value(), id);
        PassShard(id);
        order := order + [id];
        rest := rest - {id};
      }
      StoreState.ScanEnds(before, order, rest, Value(), now);
      return None, order;
    }

    /** The shards of a run, in whatever order the map yields them; `done` says whether all have reported. */
    method ShardsInOrder(runId: nat) returns (order: seq<nat>, done: bool)
      ensures StoreState.OrderOf(Value(), runId, order)
      ensures done <==> forall id :: id in StoreState.ShardsOf(Value(), runId) ==> shards[id].status == Completed
    {
      order, done := [], true;
      var rest := shards.Keys;
      while exists id :: id in rest
        invariant rest <= shards.Keys
        invariant StoreState.Distinct(order)
        invariant forall id :: id in order <==> id in shards && id !in rest && shards[id].runId == runId
        invariant done <==> forall id ::
                    id in shards && id !in rest && shards[id].runId == runId ==> shards[id].status == Completed
        decreases |rest|
      {
        var id :| id in rest;
        if shards[id].runId == runId {
          order := order + [id];
          if shards[id].status != Completed { done := false; }
        }
        rest := rest - {id};
      }
      assert rest == {};
    }

    method ClearShardSamples(runId: nat)
      modifies this`shardResults
      ensures shardResults == StoreState.StripResults(old(shardResults), shards, runId)
    {
      hide StoreState.StripResults, StoreState.StripSamples;
      var rest := shards.Keys;
      ghost var before := shardResults;
      assert shards - rest == map[];
      StoreState.NothingStripped(before, runId);
      while exists id :: id in rest
        invariant rest <= shards.Keys
        invariant shardResults == StoreState.StripResults(before, shards - rest, runId)
        decreases |rest|
      {
        var id :| id in rest;
        StoreState.StripStep(before, shards, runId, rest, id);
        if shards[id].runId == runId && id in shardResults {
          shardResults := shardResults[id := StoreState.StripSamples(shardResults[id])];
        }
        rest := rest - {id};
      }
      assert rest == {};
      assert shards - rest == shards;
    }

    /** The last report of a run: its shards' results become the run's, and their samples are dropped. */
    method MergeRun(runId: nat, visited: seq<nat>)
      requires runId in runs && runs[runId].id == runId
      modifies this`runs, this`shardResults
      ensures Value() == StoreState.MergeRun(old(Value()), runId, visited) && runs.Keys == old(runs).Keys
    {
      hide Merged, StoreState.StripResults;
      var current := runs[runId];
      var values, results := [], shardResults;
      for i := 0 to |visited|
        invariant values == Map(StoreState.ResultOf(results), visited[..i])
      {
        assert visited[..i + 1] == visited[..i] + [visited[i]];
        values := values + [if visited[i] in results then results[visited[i]] else NO_RESULT];
      }
      assert visited[..|visited|] == visited;
      var merged := MergeResults(current.config, values);
      current := current.(status := Completed, result := merged);
      runs := runs[current.id := current];
      ClearShardSamples(current.id);
    }

    method CompleteShard(id: nat, result: RunResult) returns (run: Option<Run>, ghost order: seq<nat>)
      requires Valid()
      modifies this
      ensures Valid() && Value() == StoreState.CompleteShard(old(Value()), id, result, order)
      ensures id in old(shards) ==> StoreState.OrderOf(Value(), old(shards)[id].runId, order)
      ensures run == if id in old(shards) then Some(runs[old(shards)[id].runId]) else None
    {
      hide StoreState.MergeRun;
      order := [];
      if id !in shards { return None, order; }
      StoreState.FiledLinks(Value(), id, result);
      var shard := shards[id].(status := Completed);
      shards := shards[id := shard];
      shardResults := shardResults[id := result];
      assert Value() == StoreState.FileReport(old(Value()), id, result);
      var visited, done := ShardsInOrder(shard.runId);
      order := visited;
      var current := runs[shard.runId];
      if current.status == Cancelled || !done { return Some(current), order; }
      StoreState.MergedLinks(Value(), shard.runId, visited);
      MergeRun(shard.runId, visited);
      return Some(runs[shard.runId]), order;
    }

    method AdvanceSearch(runId: nat)
      requires Valid()
      modifies this
      ensures Valid() && Value() == StoreState.AdvanceStore(old(Value()), runId)
    {
      hide Advance;
      if runId !in searchRun { return; }
      var search := searches[searchRun[runId]];
      if search.status != SearchRunning { return; }
      var record := new SearchRecord(search);
      var next, more := record.AdvanceSearch(runs[runId]);
      var after := record.Snapshot();
      assert Value() == old(Value()) && Advance(search, runs[runId]).0 == after;
      if more {
        var queued := QueueSearchRun(after, next);
      } else {
        searches := searches[search.id := after];
      }
    }
  }
}
