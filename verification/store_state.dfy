/** The controller's store as a value, and each of its locked operations as a function of it (internal/store/store.go).
    Where the code ranges over a map, the order it happens to take is an argument. */
module StoreState {
  import opened Core
  import opened Folds
  import opened Names
  import opened ShardMerge
  import opened Sweep

  datatype State = State(
    nextId: nat, targets: map<nat, Target>, runs: map<nat, Run>, searches: map<nat, AutoSearch>,
    searchRun: map<nat, nat>, shards: map<nat, Shard>, shardResults: map<nat, RunResult>)

  const EMPTY_STORE := State(0, map[], map[], map[], map[], map[], map[])

  /** Records are filed under their own IDs, and what they refer to is there. */
  ghost predicate Linked(s: State)
  {
    && (forall id :: id in s.runs ==> s.runs[id].id == id)
    && (forall id :: id in s.shards ==> s.shards[id].id == id && s.shards[id].runId in s.runs)
    && (forall id :: id in s.searches ==> s.searches[id].id == id)
    && (forall id :: id in s.searchRun ==> id in s.runs && s.searchRun[id] in s.searches)
  }

  // ----- targets

  function CreateTarget(s: State, target: Target): State
  {
    var id := s.nextId + 1;
    s.(nextId := id, targets := s.targets[id := target.(id := id)])
  }

  datatype DeleteResult = Deleted | NotFound | InUse

  ghost predicate TargetInUse(s: State, id: nat)
  {
    exists r :: r in s.runs && s.runs[r].config.targetId == id && s.runs[r].Active()
  }

  ghost function DeleteTarget(s: State, id: nat): (State, DeleteResult)
  {
    if id !in s.targets then (s, NotFound)
    else if TargetInUse(s, id) then (s, InUse)
    else (s.(targets := s.targets - {id}), Deleted)
  }

  // ----- queueing runs

  predicate InBlock(runId: nat, count: nat, id: nat) { runId < id <= runId + count }

  /** The shards of a new run take the numbers that follow its own. */
  function NewShards(runId: nat, count: nat): map<nat, Shard>
  {
    map id: nat | runId < id <= runId + count && InBlock(runId, count, id) :: Shard(id, runId, Queued, id - runId - 1)
  }

  function NewRun(s: State, config: RunConfig, searchId: Option<nat>): Run
  {
    var id := s.nextId + 1;
    Run(id, Queued, searchId, config.(workloadId := RunName(id)), NO_RESULT, 0)
  }

  function QueueRun(s: State, config: RunConfig, searchId: Option<nat>): State
  {
    var run := NewRun(s, config, searchId);
    s.(nextId := run.id + config.ShardCount(), runs := s.runs[run.id := run],
       shards := s.shards + NewShards(run.id, config.ShardCount()))
  }

  function CreateRun(s: State, config: RunConfig): State { QueueRun(s, config, None) }

  function WithLoad(config: RunConfig, load: int): RunConfig
  {
    if config.mode == RPS then config.(rps := load) else config.(vus := load)
  }

  /** Queue the next rung of a search and file the search, whose other fields are already up to date. */
  function QueueSearchRun(s: State, search: AutoSearch, load: int): State
  {
    var config := WithLoad(search.config.run, load);
    var id := NewRun(s, config, Some(search.id)).id;
    QueueRun(s, config, Some(search.id)).(
      searchRun := s.searchRun[id := search.id],
      searches := s.searches[search.id := search.(runIds := search.runIds + [id])])
  }

  function NewSearch(s: State, config: SearchConfig): AutoSearch
  {
    AutoSearch(s.nextId + 1, SearchRunning, config, [], config.startLoad, 0, 0, 0,
               Ladder(config.startLoad, config.maxLoad), [], 0)
  }

  function CreateSearch(s: State, config: SearchConfig): State
  {
    QueueSearchRun(s.(nextId := s.nextId + 1), NewSearch(s, config), config.startLoad)
  }

  // ----- cancelling

  function CancelShard(shard: Shard): Shard
  {
    if shard.status == Queued then shard.(status := Cancelled) else shard
  }

  function CancelShards(shards: map<nat, Shard>, runId: nat): map<nat, Shard>
  {
    map k | k in shards :: if shards[k].runId == runId then CancelShard(shards[k]) else shards[k]
  }

  function CancelRun(s: State, id: nat): State
  {
    if id !in s.runs || !s.runs[id].Active() then s
    else s.(runs := s.runs[id := s.runs[id].(status := Cancelled)],
            shards := CancelShards(s.shards, id))
  }

  function CancelRuns(s: State, ids: seq<nat>): State
  {
    if ids == [] then s else CancelRun(CancelRuns(s, ids[..|ids| - 1]), ids[|ids| - 1])
  }

  function CancelSearch(s: State, id: nat): State
  {
    if id !in s.searches then s
    else CancelRuns(s.(searches := s.searches[id := s.searches[id].(status := SearchCancelled)]), s.searches[id].runIds)
  }

  lemma QueueKeepsLinks(s: State, config: RunConfig, searchId: Option<nat>)
    requires Linked(s)
    ensures Linked(QueueRun(s, config, searchId))
  {
  }

  lemma QueueSearchKeepsLinks(s: State, search: AutoSearch, load: int)
    requires Linked(s)
    ensures Linked(QueueSearchRun(s, search, load))
  {
    QueueKeepsLinks(s, WithLoad(search.config.run, load), Some(search.id));
  }

  lemma CancelKeepsLinks(s: State, r: nat)
    requires Linked(s)
    ensures Linked(CancelRun(s, r))
    ensures r in s.runs ==> r in CancelRun(s, r).runs && !CancelRun(s, r).runs[r].Active()
  {
  }

  // ----- claiming

  /** The share of `total` that the shard at `index` of `count` gets. */
  function ShareOf(total: int, count: nat, index: nat): int
    requires count >= 1
  {
    TruncDiv(total, count) + if index < TruncMod(total, count) then 1 else 0
  }

  /** The configuration an agent receives with the shard at `index` of a run. */
  function ShardConfig(config: RunConfig, runId: nat, shardId: nat, index: nat): RunConfig
  {
    var own, count := config.(workloadId := WorkloadName(runId, shardId)), config.ShardCount();
    if own.mode == VU then own.(vus := ShareOf(own.vus, count, index))
    else own.(rps := ShareOf(own.rps, count, index))
  }

  predicate Claimable(s: State, id: nat)
    requires id in s.shards && s.shards[id].runId in s.runs
  {
    var run := s.runs[s.shards[id].runId];
    s.shards[id].status == Queued && run.Active() && run.config.targetId in s.targets
  }

  /** The scan passes a shard that is not claimable: a queued one is cancelled, and so is a run without its target. */
  function SkipShard(s: State, id: nat): State
    requires id in s.shards && s.shards[id].runId in s.runs
  {
    var shard := s.shards[id];
    var run := s.runs[shard.runId];
    if shard.status != Queued || Claimable(s, id) then s
    else
      var skipped := s.(shards := s.shards[id := shard.(status := Cancelled)]);
      if run.Active() then skipped.(runs := s.runs[run.id := run.(status := Cancelled)]) else skipped
  }

  function TakeShard(s: State, id: nat, now: int): (State, Assignment)
    requires id in s.shards && s.shards[id].runId in s.runs && Claimable(s, id)
  {
    var shard := s.shards[id].(status := Running);
    var before := s.runs[shard.runId];
    var run := before.(status := Running, startedUnix := if before.startedUnix == 0 then now else before.startedUnix);
    (s.(shards := s.shards[id := shard], runs := s.runs[run.id := run]),
     Assignment(run.(config := ShardConfig(run.config, run.id, shard.id, shard.index)),
         s.targets[run.config.targetId], shard))
  }

  lemma SkipKeepsLinks(s: State, id: nat)
    requires Linked(s) && id in s.shards
    ensures Linked(SkipShard(s, id)) && SkipShard(s, id).shards.Keys == s.shards.Keys
  {
  }

  ghost function SkipShards(s: State, order: seq<nat>): (r: State)
    requires Linked(s) && forall i :: 0 <= i < |order| ==> order[i] in s.shards
    ensures Linked(r) && r.shards.Keys == s.shards.Keys
  {
    if order == [] then s
    else
      var before, id := SkipShards(s, order[..|order| - 1]), order[|order| - 1];
      SkipKeepsLinks(before, id);
      SkipShard(before, id)
  }

  ghost predicate Distinct(order: seq<nat>)
  {
    forall i, j :: 0 <= i < j < |order| ==> order[i] != order[j]
  }

  /** Entry `i` of a scan could not be handed out when its turn came. */
  ghost predicate Passed(s: State, order: seq<nat>, i: nat)
    requires Linked(s) && i < |order| && forall j :: 0 <= j < |order| ==> order[j] in s.shards
  {
    !Claimable(SkipShards(s, order[..i]), order[i])
  }

  /** `order` is a scan over the shards: none twice, none claimable before its last. */
  ghost predicate Scan(s: State, order: seq<nat>)
    requires Linked(s)
  {
    && Distinct(order) && (forall i :: 0 <= i < |order| ==> order[i] in s.shards)
    && (forall i :: 0 <= i < |order| - 1 ==> Passed(s, order, i))
  }

  /** ClaimRun for one scan: it ends at the first claimable shard, or has seen them all. */
  ghost predicate Claims(s: State, order: seq<nat>, now: int, s': State, claimed: Option<Assignment>)
    requires Linked(s)
  {
    && Scan(s, order)
    && if claimed.None? then
         && (forall id :: id in s.shards ==> id in order)
         && AllPassed(s, order)
         && s' == SkipShards(s, order)
       else
         && order != []
         && var t, id := SkipShards(s, order[..|order| - 1]), order[|order| - 1];
            Claimable(t, id) && TakeShard(t, id, now) == (s', claimed.value)
  }

  /** The scan went over `order` and none of it could be handed out. */
  ghost predicate AllPassed(s: State, order: seq<nat>)
    requires Linked(s)
  {
    Scan(s, order) && (order != [] ==> Passed(s, order, |order| - 1))
  }

  lemma SkipOneMore(s: State, order: seq<nat>, id: nat)
    requires Linked(s) && id in s.shards && forall i :: 0 <= i < |order| ==> order[i] in s.shards
    ensures SkipShards(s, order + [id]) == SkipShard(SkipShards(s, order), id)
  {
    hide SkipShard;
    assert (order + [id])[..|order|] == order;
  }

  lemma ScanFurther(s: State, order: seq<nat>, id: nat)
    requires Linked(s) && AllPassed(s, order) && id in s.shards && id !in order
    ensures Scan(s, order + [id])
  {
    hide SkipShards, Claimable, Linked;
    var longer := order + [id];
    forall i | 0 <= i < |order| ensures Passed(s, longer, i) {
      assert longer[..i] == order[..i];
      assert Passed(s, order, i);
    }
  }

  lemma PassedToo(s: State, order: seq<nat>, id: nat)
    requires Linked(s) && AllPassed(s, order) && id in s.shards && id !in order
    requires !Claimable(SkipShards(s, order), id)
    ensures AllPassed(s, order + [id])
    ensures SkipShards(s, order + [id]) == SkipShard(SkipShards(s, order), id)
  {
    hide SkipShard, SkipShards, Claimable;
    ScanFurther(s, order, id);
    SkipOneMore(s, order, id);
    assert (order + [id])[..|order|] == order;
  }

  lemma ClaimedAt(s: State, order: seq<nat>, id: nat, now: int)
    requires Linked(s) && AllPassed(s, order) && id in s.shards && id !in order
    requires Claimable(SkipShards(s, order), id)
    ensures var (t, assignment) := TakeShard(SkipShards(s, order), id, now);
            Claims(s, order + [id], now, t, Some(assignment))
  {
    hide SkipShard, SkipShards, Claimable, TakeShard;
    ScanFurther(s, order, id);
    assert (order + [id])[..|order|] == order;
  }

  /** A scan on its way: `rest` is still to be looked at, and `t` is the store by now. */
  ghost predicate Scanning(s: State, order: seq<nat>, rest: set<nat>, t: State)
    requires Linked(s)
  {
    && AllPassed(s, order) && t == SkipShards(s, order)
    && rest <= s.shards.Keys && forall id :: id in s.shards ==> (id in order <==> id !in rest)
  }

  lemma ScanBegins(s: State)
    requires Linked(s)
    ensures Scanning(s, [], s.shards.Keys, s)
  {
  }

  lemma ScanPasses(s: State, order: seq<nat>, rest: set<nat>, t: State, id: nat)
    requires Linked(s) && Scanning(s, order, rest, t) && id in rest
    requires Linked(t) && id in t.shards && !Claimable(t, id)
    ensures Scanning(s, order + [id], rest - {id}, SkipShard(t, id))
  {
    hide Linked, AllPassed, SkipShard, SkipShards, Claimable;
    PassedToo(s, order, id);
  }

  lemma ScanClaims(s: State, order: seq<nat>, rest: set<nat>, t: State, id: nat, now: int)
    requires Linked(s) && Scanning(s, order, rest, t) && id in rest
    requires Linked(t) && id in t.shards && Claimable(t, id)
    ensures var (after, assignment) := TakeShard(t, id, now);
            Linked(after) && Claims(s, order + [id], now, after, Some(assignment))
  {
    hide AllPassed, SkipShards, Claimable, TakeShard, Claims;
    TakeKeepsLinks(t, id, now);
    ClaimedAt(s, order, id, now);
  }

  lemma ScanEnds(s: State, order: seq<nat>, rest: set<nat>, t: State, now: int)
    requires Linked(s) && Scanning(s, order, rest, t) && rest == {}
    ensures Claims(s, order, now, t, None)
  {
    hide SkipShards;
  }

  lemma TakeKeepsLinks(s: State, id: nat, now: int)
    requires Linked(s) && id in s.shards && Claimable(s, id)
    ensures Linked(TakeShard(s, id, now).0)
  {
  }

  // ----- reporting

  ghost function ShardsOf(s: State, runId: nat): set<nat>
  {
    set id | id in s.shards && s.shards[id].runId == runId
  }

  /** `order` lists the shards of a run, once each. */
  ghost predicate OrderOf(s: State, runId: nat, order: seq<nat>)
  {
    Distinct(order) && forall id :: id in order <==> id in ShardsOf(s, runId)
  }

  function ResultOf(results: map<nat, RunResult>): nat -> RunResult
  {
    id => if id in results then results[id] else NO_RESULT
  }

  function StripSamples(r: RunResult): RunResult
  {
    r.(samples := None,
       scenarios := seq(|r.scenarios|, i requires 0 <= i < |r.scenarios| => r.scenarios[i].(samples := None)))
  }

  function FileReport(s: State, id: nat, result: RunResult): State
    requires id in s.shards
  {
    s.(shards := s.shards[id := s.shards[id].(status := Completed)], shardResults := s.shardResults[id := result])
  }

  /** The last report of a run completes it, unless the run was cancelled. */
  ghost predicate Completes(s: State, runId: nat)
    requires runId in s.runs
  {
    s.runs[runId].status != Cancelled && forall id :: id in ShardsOf(s, runId) ==> s.shards[id].status == Completed
  }

  /** The reports of a run without their samples, and all others as they are. */
  function StripResults(results: map<nat, RunResult>, shards: map<nat, Shard>, runId: nat): map<nat, RunResult>
  {
    map id | id in results ::
      if id in shards && shards[id].runId == runId then StripSamples(results[id]) else results[id]
  }

  lemma NothingStripped(results: map<nat, RunResult>, runId: nat)
    ensures StripResults(results, map[], runId) == results
  {
    hide StripSamples;
  }

  lemma StripStep(results: map<nat, RunResult>, shards: map<nat, Shard>, runId: nat, rest: set<nat>, id: nat)
    requires id in rest && rest <= shards.Keys
    ensures var before := StripResults(results, shards - rest, runId);
            StripResults(results, shards - (rest - {id}), runId)
            == if shards[id].runId == runId && id in before then before[id := StripSamples(before[id])] else before
  {
    hide StripSamples;
  }

  function MergeRun(s: State, runId: nat, order: seq<nat>): State
    requires runId in s.runs
  {
    var run := s.runs[runId];
    s.(runs := s.runs[runId := run.(status := Completed,
                                    result := Merged(run.config, Map(ResultOf(s.shardResults), order)))],
       shardResults := StripResults(s.shardResults, s.shards, runId))
  }

  ghost function CompleteShard(s: State, id: nat, result: RunResult, order: seq<nat>): State
    requires Linked(s)
  {
    if id !in s.shards then s
    else
      var filed := FileReport(s, id, result);
      var runId := s.shards[id].runId;
      if Completes(filed, runId) then MergeRun(filed, runId, order) else filed
  }

  lemma FiledLinks(s: State, id: nat, result: RunResult)
    requires Linked(s) && id in s.shards
    ensures Linked(FileReport(s, id, result))
  {
  }

  lemma MergedLinks(s: State, r: nat, order: seq<nat>)
    requires Linked(s) && r in s.runs
    ensures Linked(MergeRun(s, r, order))
  {
    hide Merged;
  }

  // ----- advancing a search

  function AdvanceStore(s: State, runId: nat): State
    requires Linked(s)
  {
    if runId !in s.searchRun then s
    else
      var search := s.searches[s.searchRun[runId]];
      if search.status != SearchRunning then s
      else
        var (after, next) := Advance(search, s.runs[runId]);
        match next
        case Some(load) => QueueSearchRun(s, after, load)
        case None => s.(searches := s.searches[search.id := after])
  }
}
