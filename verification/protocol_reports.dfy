/** A report keeps the run and shard part of the invariant; the last one of a run merges exactly what was reported. */
module ProtocolReports {
  import opened Core
  import opened Folds
  import opened ShardMerge
  import opened StoreState
  import opened Protocol
  import opened ProtocolRuns

  /** The report that is filed and the run it belongs to, in the two ways a report can end. */
  ghost predicate Filed(w: World, w': World, id: nat, result: RunResult)
    requires Linked(w.store)
  {
    && id in w.handed && id !in w.reports && id in w.store.shards
    && w' == w.(store := FileReport(w.store, id, result), reports := w.reports[id := result])
  }

  ghost predicate FiledLast(w: World, w': World, id: nat, result: RunResult, visited: seq<nat>)
    requires Linked(w.store)
  {
    && id in w.handed && id !in w.reports && id in w.store.shards
    && var filed, r := FileReport(w.store, id, result), w.store.shards[id].runId;
       r in filed.runs && Completes(filed, r)
       && w' == World(MergeRun(filed, r, visited), w.handed, w.reports[id := result], w.pending + {r},
                      w.merges[r := visited])
  }

  /** A report for a shard in somebody's hands finds its run running or cancelled. */
  lemma ReportFindsRun(w: World, id: nat)
    requires RunsInv(w) && id in w.handed && id !in w.reports && id in w.store.shards
    ensures var run := w.store.runs[w.store.shards[id].runId];
            (run.status == Running || run.status == Cancelled) && run.id !in w.pending
    ensures w.store.shards[id].status == Running
  {
    Known(w, id);
    RunKnown(w, w.store.shards[id].runId);
    hide RunsInv, MergedOk, InBlock, HandedOk;
  }

  lemma ReportCases(w: World, id: nat, result: RunResult, visited: seq<nat>, w': World)
    requires RunsInv(w) && Reports(w, id, result, visited, w')
    ensures (Filed(w, w', id, result) && !Completes(w'.store, w.store.shards[id].runId))
         || (FiledLast(w, w', id, result, visited) && OrderOf(w'.store, w.store.shards[id].runId, visited))
  {
    hide RunsInv, Completes, OrderOf, MergeRun, Linked;
    RunsLinked(w);
    ReportFindsRun(w, id);
    FiledLinks(w.store, id, result);
    MergeShape(FileReport(w.store, id, result), w.store.shards[id].runId, visited);
  }

  // ----- a report that is not the last

  lemma ReportAside(w: World, w': World, id: nat, result: RunResult)
    requires id in w.store.shards && w'.store.shards == w.store.shards[id := w.store.shards[id].(status := Completed)]
    requires w'.handed == w.handed && w'.reports == w.reports[id := result]
    requires w'.store.shardResults == w.store.shardResults[id := result]
    ensures ShardsAside(w, w', w.store.shards[id].runId)
  {
  }

  lemma FiledTouches(w: World, w': World, id: nat, result: RunResult)
    requires Linked(w.store) && Filed(w, w', id, result) && Linked(w'.store)
    ensures Touches(w, w', w.store.shards[id].runId)
    ensures w'.store.searches == w.store.searches && w'.store.searchRun == w.store.searchRun
  {
    OneRunAside(w, w', w.store.shards[id].runId);
    ReportAside(w, w', id, result);
    hide Linked, RunsAside, ShardsAside;
  }

  lemma FiledShard(w: World, w': World, id: nat, result: RunResult, k: nat)
    requires Linked(w.store) && Filed(w, w', id, result) && Linked(w'.store)
    requires k in w.store.shards && KnownOk(w, k) && w.store.shards[k].runId == w.store.shards[id].runId
    requires w.store.runs[w.store.shards[id].runId].status in {Running, Cancelled}
    ensures KnownOk(w', k)
  {
    hide InBlock, ShardConfig;
  }

  lemma FiledRun(w: World, w': World, id: nat, result: RunResult, r: nat)
    requires Linked(w.store) && Filed(w, w', id, result) && Linked(w'.store)
    requires r == w.store.shards[id].runId && RunOk(w, r) && !Completes(w'.store, r)
    requires w.store.runs[r].status in {Running, Cancelled}
    ensures RunOk(w', r) && RunEvolves(w, w', r)
  {
    hide InBlock, MergedOk;
  }

  // ----- the last report

  lemma MergeShape(s: State, r: nat, order: seq<nat>)
    requires Linked(s) && r in s.runs
    ensures var s' := MergeRun(s, r, order);
            && s' == s.(runs := s'.runs, shardResults := s'.shardResults)
            && s'.runs == s.runs[r := s'.runs[r]]
            && s'.runs[r] == s.runs[r].(status := Completed,
                                        result := Merged(s.runs[r].config, Map(ResultOf(s.shardResults), order)))
            && (forall k :: k in s.shards && s.shards[k].runId != r && k in s.shardResults ==>
                  k in s'.shardResults && s'.shardResults[k] == s.shardResults[k])
  {
    hide Merged, StripSamples;
  }

  lemma LastTouches(w: World, w': World, id: nat, result: RunResult, visited: seq<nat>)
    requires Linked(w.store) && FiledLast(w, w', id, result, visited) && Linked(w'.store)
    ensures Touches(w, w', w.store.shards[id].runId)
    ensures w'.store.searches == w.store.searches && w'.store.searchRun == w.store.searchRun
  {
    var r := w.store.shards[id].runId;
    var mid := w.(store := FileReport(w.store, id, result), reports := w.reports[id := result]);
    FiledLinks(w.store, id, result);
    FiledTouches(w, mid, id, result);
    MergeTouches(mid, w', r, visited);
    hide FileReport, MergeRun, Completes;
    TouchesTransitive(w, mid, w', r);
  }

  lemma ResultsAside(w: World, w': World, r: nat)
    requires w'.store.shards == w.store.shards && w'.handed == w.handed && w'.reports == w.reports
    requires forall k :: k in w.store.shards && w.store.shards[k].runId != r && k in w.store.shardResults ==>
               k in w'.store.shardResults && w'.store.shardResults[k] == w.store.shardResults[k]
    ensures ShardsAside(w, w', r)
  {
  }

  lemma MergeTouches(mid: World, w': World, r: nat, visited: seq<nat>)
    requires Linked(mid.store) && r in mid.store.runs && Linked(w'.store)
    requires w' == World(MergeRun(mid.store, r, visited), mid.handed, mid.reports, mid.pending + {r},
                         mid.merges[r := visited])
    ensures Touches(mid, w', r)
    ensures w'.store.searches == mid.store.searches && w'.store.searchRun == mid.store.searchRun
  {
    hide MergeRun, Linked, RunsAside, ShardsAside, Merged;
    MergeShape(mid.store, r, visited);
    OneRunAside(mid, w', r);
    ResultsAside(mid, w', r);
  }

  lemma TouchesTransitive(a: World, b: World, c: World, r: nat)
    requires Touches(a, b, r) && Touches(b, c, r)
    ensures Touches(a, c, r)
  {
    forall id | id in a.store.shards && a.store.shards[id].runId != r ensures SameShard(a, c, id) {
      assert SameShard(a, b, id) && SameShard(b, c, id);
    }
  }

  lemma AllDone(s: State, r: nat, k: nat)
    requires r in s.runs && Completes(s, r) && k in s.shards && s.shards[k].runId == r
    ensures s.shards[k].status == Completed
  {
    assert k in ShardsOf(s, r);
  }

  lemma LastShard(w: World, w': World, id: nat, result: RunResult, visited: seq<nat>, k: nat)
    requires Linked(w.store) && FiledLast(w, w', id, result, visited) && Linked(w'.store)
    requires k in w.store.shards && KnownOk(w, k) && w.store.shards[k].runId == w.store.shards[id].runId
    ensures KnownOk(w', k) && k in w'.reports
    ensures w.store.runs[w.store.shards[id].runId].status != Completed ==>
              ResultOf(FileReport(w.store, id, result).shardResults)(k) == w'.reports[k]
  {
    hide InBlock, ShardConfig, Merged, MergeRun, Linked, Completes;
    var filed, r := FileReport(w.store, id, result), w.store.shards[id].runId;
    FiledLinks(w.store, id, result);
    MergeShape(filed, r, visited);
    AllDone(filed, r, k);
  }

  lemma LastRun(w: World, w': World, id: nat, result: RunResult, visited: seq<nat>, r: nat)
    requires Linked(w.store) && FiledLast(w, w', id, result, visited) && Linked(w'.store)
    requires r == w.store.shards[id].runId && RunOk(w, r) && OrderOf(w'.store, r, visited)
    requires w.store.runs[r].status == Running
    requires forall k :: k in w.store.shards && w.store.shards[k].runId == r ==>
               k in w'.reports && ResultOf(FileReport(w.store, id, result).shardResults)(k) == w'.reports[k]
    ensures RunOk(w', r) && RunEvolves(w, w', r)
  {
    hide InBlock, Merged, MergeRun, Linked, Completes;
    var filed := FileReport(w.store, id, result);
    FiledLinks(w.store, id, result);
    MergeShape(filed, r, visited);
    forall i | 0 <= i < |visited|
      ensures visited[i] in w'.reports && ResultOf(filed.shardResults)(visited[i]) == ResultOf(w'.reports)(visited[i])
    {
      assert visited[i] in ShardsOf(w'.store, r);
    }
    assert Map(ResultOf(filed.shardResults), visited) == Map(ResultOf(w'.reports), visited);
    assert MergedOk(w', r);
  }

  /** Every report keeps the invariant, whichever shard it is for and whatever it says. */
  lemma ReportKeepsRuns(w: World, id: nat, result: RunResult, visited: seq<nat>, w': World)
    requires RunsInv(w) && Reports(w, id, result, visited, w')
    ensures RunsInv(w') && Evolves(w, w') && w'.handed == w.handed
  {
    hide RunsInv, KnownOk, RunOk, Filed, FiledLast, Completes, Touches, Evolves, RunEvolves, Linked;
    RunsLinked(w);
    ReportCases(w, id, result, visited, w');
    ReportFindsRun(w, id);
    var r := w.store.shards[id].runId;
    RunKnown(w, r);
    if Filed(w, w', id, result) && !Completes(w'.store, r) {
      FiledReport(w, w', id, result);
    } else {
      LastReport(w, w', id, result, visited);
    }
  }

  lemma FiledReport(w: World, w': World, id: nat, result: RunResult)
    requires RunsInv(w) && Filed(w, w', id, result) && !Completes(w'.store, w.store.shards[id].runId)
    ensures RunsInv(w') && Evolves(w, w') && w'.handed == w.handed
  {
    hide RunsInv, KnownOk, RunOk, Completes, Touches, Evolves, RunEvolves, Linked;
    var r := w.store.shards[id].runId;
    RunsLinked(w);
    ReportFindsRun(w, id);
    RunKnown(w, r);
    FiledLinks(w.store, id, result);
    FiledTouches(w, w', id, result);
    FiledRun(w, w', id, result, r);
    forall k | k in w'.store.shards && w'.store.shards[k].runId == r ensures KnownOk(w', k) {
      Known(w, k);
      FiledShard(w, w', id, result, k);
    }
    TouchesKeepsRuns(w, w', r);
    TouchesEvolves(w, w', r);
  }

  lemma LastReport(w: World, w': World, id: nat, result: RunResult, visited: seq<nat>)
    requires RunsInv(w) && FiledLast(w, w', id, result, visited) && OrderOf(w'.store, w.store.shards[id].runId, visited)
    ensures RunsInv(w') && Evolves(w, w') && w'.handed == w.handed
  {
    hide RunsInv, KnownOk, RunOk, Completes, Touches, Evolves, RunEvolves, Linked, MergeRun, OrderOf;
    var r, filed := w.store.shards[id].runId, FileReport(w.store, id, result);
    RunsLinked(w);
    ReportFindsRun(w, id);
    RunKnown(w, r);
    FiledLinks(w.store, id, result);
    MergedLinks(filed, r, visited);
    MergeShape(filed, r, visited);
    NotCancelledLast(filed, r);
    LastTouches(w, w', id, result, visited);
    forall k | k in w.store.shards && w.store.shards[k].runId == r
      ensures KnownOk(w', k) && k in w'.reports && ResultOf(filed.shardResults)(k) == w'.reports[k]
    {
      Known(w, k);
      LastShard(w, w', id, result, visited, k);
    }
    LastRun(w, w', id, result, visited, r);
    SameShards(w, w', r);
    TouchesKeepsRuns(w, w', r);
    TouchesEvolves(w, w', r);
  }

  lemma NotCancelledLast(s: State, r: nat)
    requires r in s.runs && Completes(s, r)
    ensures s.runs[r].status != Cancelled
  {
  }

  lemma SameShards(w: World, w': World, r: nat)
    requires Touches(w, w', r)
    ensures w'.store.shards.Keys == w.store.shards.Keys
    ensures forall k :: k in w.store.shards ==> w'.store.shards[k].runId == w.store.shards[k].runId
  {
    hide Linked, RunsAside, SameShard;
  }
}
