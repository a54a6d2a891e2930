/** Every operation keeps the run and shard part of the protocol's invariant, and changes runs only in ways a search
    can live with. */
module ProtocolRuns {
  import opened Core
  import opened Folds
  import opened ShardMerge
  import opened Sweep
  import opened SweepProperties
  import opened StoreState
  import opened Protocol

  /** A run that has ended stays as it is; an active one keeps its configuration, and completes only into `pending`. */
  ghost predicate RunEvolves(w: World, w': World, r: nat)
  {
    && r in w.store.runs && r in w'.store.runs
    && var a, b := w.store.runs[r], w'.store.runs[r];
       && b.id == a.id && b.config == a.config && b.searchId == a.searchId
       && (!a.Active() ==> b == a && (r in w'.pending <==> r in w.pending))
       && (a.Active() && b.status == Completed ==> r in w'.pending)
  }

  ghost predicate Evolves(w: World, w': World)
  {
    && w'.store.searches == w.store.searches && w'.store.searchRun == w.store.searchRun
    && w.store.nextId <= w'.store.nextId
    && forall r :: r in w.store.runs ==> RunEvolves(w, w', r)
  }

  lemma EvolvesKeepsRung(w: World, w': World, s: AutoSearch, i: nat)
    requires Evolves(w, w') && i < |s.runIds| && RungOk(w, s, i)
    ensures RungOk(w', s, i) && RunEvolves(w, w', s.runIds[i])
  {
    hide StepFrom;
    assert RunEvolves(w, w', s.runIds[i]);
  }

  lemma EvolvesKeepsSearch(w: World, w': World, k: nat)
    requires Linked(w.store) && Linked(w'.store) && Evolves(w, w') && k in w.store.searches && SearchOk(w, k)
    ensures SearchOk(w', k)
  {
    hide Live, Finished, StepFrom, Linked, InBlock;
    var s := w.store.searches[k];
    forall i | 0 <= i < |s.runIds| ensures RungOk(w', s, i) && RunEvolves(w, w', s.runIds[i]) {
      EvolvesKeepsRung(w, w', s, i);
    }
  }

  /** Searches are none the worse for anything that happens to runs. */
  lemma EvolvesKeepsSearches(w: World, w': World)
    requires Linked(w.store) && Linked(w'.store) && Evolves(w, w') && SearchesInv(w)
    ensures SearchesInv(w')
  {
    hide SearchOk;
    forall k | k in w'.store.searches ensures SearchOk(w', k) {
      EvolvesKeepsSearch(w, w', k);
    }
    forall r | r in w'.store.searchRun ensures ListedOk(w', r) {
      assert ListedOk(w, r);
      assert RunEvolves(w, w', r);
    }
  }

  // ----- targets and new runs

  /** Nothing that was there changes, and new shards belong to new runs. */
  ghost predicate Extends(w: World, w': World)
  {
    && Linked(w.store) && Linked(w'.store) && w.store.nextId <= w'.store.nextId
    && w'.handed == w.handed && w'.reports == w.reports && w'.pending <= w.pending && w'.merges == w.merges
    && w'.store.shardResults == w.store.shardResults
    && (forall r :: r in w.store.runs ==> r in w'.store.runs && w'.store.runs[r] == w.store.runs[r])
    && (forall id :: id in w.store.shards ==> id in w'.store.shards && w'.store.shards[id] == w.store.shards[id])
    && (forall id :: id in w'.store.shards && id !in w.store.shards ==> w'.store.shards[id].runId !in w.store.runs)
  }

  lemma ExtendsShard(w: World, w': World, id: nat)
    requires Extends(w, w') && id in w.store.shards && ShardOk(w, id)
    ensures ShardOk(w', id)
  {
  }

  lemma ExtendsHanded(w: World, w': World, id: nat)
    requires Extends(w, w') && id in w.handed && HandedOk(w, id)
    ensures HandedOk(w', id)
  {
    hide ShardConfig;
  }

  lemma ExtendsReport(w: World, w': World, id: nat)
    requires Extends(w, w') && id in w.reports && ReportOk(w, id)
    ensures ReportOk(w', id)
  {
  }

  lemma ExtendsRun(w: World, w': World, r: nat)
    requires Extends(w, w') && r in w.store.runs && RunOk(w, r)
    ensures RunOk(w', r)
  {
    hide Merged, InBlock;
    if w.store.runs[r].status == Running {
      var id :| id in w.store.shards && w.store.shards[id].runId == r && w.store.shards[id].status != Completed;
      assert w'.store.shards[id].status != Completed;
    }
    assert ShardsOf(w'.store, r) == ShardsOf(w.store, r);
  }

  /** It is enough to look at the new runs and the new shards. */
  lemma ExtendsKeepsRuns(w: World, w': World)
    requires RunsInv(w) && Extends(w, w')
    requires forall r :: r in w'.store.runs && r !in w.store.runs ==> RunOk(w', r)
    requires forall id :: id in w'.store.shards && id !in w.store.shards ==> ShardOk(w', id)
    ensures RunsInv(w')
  {
    hide ShardOk, HandedOk, ReportOk, RunOk;
    forall id | id in w'.store.shards ensures ShardOk(w', id) {
      if id in w.store.shards { ExtendsShard(w, w', id); }
    }
    forall id | id in w'.handed ensures HandedOk(w', id) { ExtendsHanded(w, w', id); }
    forall id | id in w'.reports ensures ReportOk(w', id) { ExtendsReport(w, w', id); }
    forall r | r in w'.store.runs ensures RunOk(w', r) {
      if r in w.store.runs { ExtendsRun(w, w', r); }
    }
  }

  lemma TargetsDoNotMatter(w: World, w': World)
    requires RunsInv(w)
    requires w' == w.(store := w.store.(nextId := w'.store.nextId, targets := w'.store.targets))
    requires w.store.nextId <= w'.store.nextId
    ensures RunsInv(w') && Evolves(w, w')
  {
    hide ShardOk, HandedOk, ReportOk, RunOk;
    assert Extends(w, w');
    ExtendsKeepsRuns(w, w');
  }

  /** Every number in use is below the next one. */
  lemma NumbersBelow(w: World)
    requires RunsInv(w)
    ensures forall r :: r in w.store.runs ==> r <= w.store.nextId
    ensures forall id :: id in w.store.shards ==> id <= w.store.nextId
  {
    forall r | r in w.store.runs ensures r <= w.store.nextId { assert RunOk(w, r); }
    forall id | id in w.store.shards ensures id <= w.store.nextId {
      assert ShardOk(w, id) && RunOk(w, w.store.shards[id].runId);
    }
  }

  /** What queueing a run adds to the store: the run, and a block of shards right after it. */
  lemma QueueRunShape(s: State, config: RunConfig, searchId: Option<nat>)
    requires Linked(s)
    requires forall r :: r in s.runs ==> r <= s.nextId
    requires forall id :: id in s.shards ==> id <= s.nextId
    ensures var s', run := QueueRun(s, config, searchId), NewRun(s, config, searchId);
            && Linked(s') && run.id == s.nextId + 1 && run.status == Queued
            && run.config.ShardCount() == config.ShardCount()
            && s' == s.(nextId := s'.nextId, runs := s'.runs, shards := s'.shards)
            && s'.runs == s.runs[run.id := run] && s'.nextId == run.id + run.config.ShardCount()
            && (forall id :: id in s.shards ==> id in s'.shards && s'.shards[id] == s.shards[id])
            && (forall id :: id in s'.shards && id !in s.shards ==> InBlock(run.id, run.config.ShardCount(), id))
            && (forall id: nat :: InBlock(run.id, run.config.ShardCount(), id) ==>
                  id in s'.shards && id !in s.shards && s'.shards[id] == Shard(id, run.id, Queued, id - run.id - 1))
  {
  }

  lemma NewRunExtends(w: World, w': World, config: RunConfig, searchId: Option<nat>)
    requires RunsInv(w) && w' == w.(store := QueueRun(w.store, config, searchId))
    ensures Extends(w, w')
  {
    hide ShardOk, HandedOk, ReportOk, RunOk, NewRun, InBlock, QueueRun;
    NumbersBelow(w);
    QueueRunShape(w.store, config, searchId);
  }

  lemma NewRunOk(w: World, w': World, config: RunConfig, searchId: Option<nat>)
    requires RunsInv(w) && w' == w.(store := QueueRun(w.store, config, searchId))
    ensures Extends(w, w')
    ensures forall r :: r in w'.store.runs && r !in w.store.runs ==> RunOk(w', r)
    ensures forall id :: id in w'.store.shards && id !in w.store.shards ==> ShardOk(w', id)
  {
    hide ShardOk, HandedOk, ReportOk, RunOk, NewRun, InBlock, QueueRun, Extends;
    NumbersBelow(w);
    NewRunExtends(w, w', config, searchId);
    QueueRunShape(w.store, config, searchId);
    var run := NewRun(w.store, config, searchId);
    forall id | id in w'.store.shards && id !in w.store.shards ensures ShardOk(w', id) {
      if id in w.handed { HandedIsFiled(w, id); }
      NewShardOk(w', run, id);
    }
    NewRunIsOk(w', run);
  }

  lemma HandedIsFiled(w: World, id: nat)
    requires RunsInv(w) && id in w.handed
    ensures id in w.store.shards
  {
    assert HandedOk(w, id);
  }

  lemma NewShardOk(w: World, run: Run, id: nat)
    requires Linked(w.store) && run.id in w.store.runs && w.store.runs[run.id] == run && run.status == Queued
    requires id in w.store.shards && id !in w.handed && InBlock(run.id, run.config.ShardCount(), id)
    requires w.store.shards[id] == Shard(id, run.id, Queued, id - run.id - 1)
    ensures ShardOk(w, id)
  {
  }

  lemma NewRunIsOk(w: World, run: Run)
    requires Linked(w.store) && run.id in w.store.runs && w.store.runs[run.id] == run && run.status == Queued
    requires run.id !in w.pending && run.id + run.config.ShardCount() <= w.store.nextId
    requires forall id :: InBlock(run.id, run.config.ShardCount(), id) ==>
               id in w.store.shards && w.store.shards[id].runId == run.id
    ensures RunOk(w, run.id)
  {
  }

  lemma QueueRunKeepsRuns(w: World, config: RunConfig, searchId: Option<nat>)
    requires RunsInv(w)
    ensures var w' := w.(store := QueueRun(w.store, config, searchId)); RunsInv(w') && Evolves(w, w')
  {
    hide ShardOk, HandedOk, ReportOk, RunOk;
    var w' := w.(store := QueueRun(w.store, config, searchId));
    NewRunOk(w, w', config, searchId);
    ExtendsKeepsRuns(w, w');
  }

  // ----- operations on one run

  /** What is known about shard `id` is the same. */
  ghost predicate SameShard(w: World, w': World, id: nat)
    requires id in w.store.shards
  {
    && id in w'.store.shards && w'.store.shards[id] == w.store.shards[id]
    && (id in w'.handed <==> id in w.handed) && (id in w.handed ==> w'.handed[id] == w.handed[id])
    && (id in w'.reports <==> id in w.reports) && (id in w.reports ==> w'.reports[id] == w.reports[id])
    && (id in w.store.shardResults ==>
          id in w'.store.shardResults && w'.store.shardResults[id] == w.store.shardResults[id])
  }

  /** No run but `r` changes, nor whether it is pending and how it was merged. */
  ghost predicate RunsAside(w: World, w': World, r: nat)
  {
    && (forall q :: q in w'.store.runs <==> q in w.store.runs)
    && (forall q :: q in w.store.runs && q != r ==>
          && w'.store.runs[q] == w.store.runs[q] && (q in w'.pending <==> q in w.pending)
          && (q in w.merges ==> q in w'.merges && w'.merges[q] == w.merges[q]))
    && (forall q :: q in w'.pending && q !in w.store.runs ==> q in w.pending)
  }

  /** No shard but those of `r` changes, and even these stay with their run. */
  ghost predicate ShardsAside(w: World, w': World, r: nat)
  {
    && (forall id :: id in w'.store.shards <==> id in w.store.shards)
    && (forall id :: id in w.store.shards ==> w'.store.shards[id].runId == w.store.shards[id].runId)
    && (forall id :: id in w.store.shards && w.store.shards[id].runId != r ==> SameShard(w, w', id))
    && (forall id :: id in w'.handed && id !in w.store.shards ==> id in w.handed)
    && (forall id :: id in w'.reports && id !in w.store.shards ==> id in w.reports)
  }

  /** Only run `r`, its shards and what is known about them may change, and even then not what they are. */
  ghost predicate Touches(w: World, w': World, r: nat)
  {
    && Linked(w.store) && Linked(w'.store) && w'.store.nextId == w.store.nextId && r in w.store.runs
    && RunsAside(w, w', r) && ShardsAside(w, w', r)
  }

  lemma OneRunAside(w: World, w': World, r: nat)
    requires r in w.store.runs && r in w'.store.runs && w'.store.runs == w.store.runs[r := w'.store.runs[r]]
    requires forall q :: q != r ==> (q in w'.pending <==> q in w.pending)
    requires forall q :: q in w.merges && q != r ==> q in w'.merges && w'.merges[q] == w.merges[q]
    ensures RunsAside(w, w', r)
  {
  }

  /** Everything the invariant says about one shard. */
  ghost predicate KnownOk(w: World, id: nat)
    requires Linked(w.store) && id in w.store.shards
  {
    ShardOk(w, id) && (id in w.handed ==> HandedOk(w, id)) && (id in w.reports ==> ReportOk(w, id))
  }

  /** The part of the invariant that an operation on run `r` has to look at. */
  ghost predicate RunOfShardsOk(w: World, r: nat)
    requires Linked(w.store) && r in w.store.runs
  {
    RunOk(w, r) && forall id :: id in w.store.shards && w.store.shards[id].runId == r ==> KnownOk(w, id)
  }

  lemma RunsLinked(w: World)
    requires RunsInv(w)
    ensures Linked(w.store)
    ensures forall id :: id in w.store.shards ==> w.store.shards[id].runId in w.store.runs
  {
  }

  lemma Known(w: World, id: nat)
    requires RunsInv(w) && id in w.store.shards
    ensures KnownOk(w, id)
  {
    hide ShardOk, HandedOk, ReportOk, RunOk;
  }

  lemma RunKnown(w: World, r: nat)
    requires RunsInv(w) && r in w.store.runs
    ensures RunOk(w, r)
  {
    hide ShardOk, HandedOk, ReportOk, RunOk;
  }

  lemma OtherShardOk(w: World, w': World, r: nat, id: nat)
    requires Touches(w, w', r) && id in w.store.shards && w.store.shards[id].runId != r && KnownOk(w, id)
    ensures KnownOk(w', id)
  {
    hide InBlock, ShardConfig;
    assert SameShard(w, w', id);
  }

  lemma OtherMerge(w: World, w': World, r: nat, q: nat)
    requires Touches(w, w', r) && q in w.store.runs && q != r && MergedOk(w, q)
    ensures MergedOk(w', q)
  {
    hide Merged;
    assert ShardsOf(w'.store, q) == ShardsOf(w.store, q);
    var order := w.merges[q];
    forall i | 0 <= i < |order| ensures ResultOf(w'.reports)(order[i]) == ResultOf(w.reports)(order[i]) {
      assert order[i] in order;
      assert order[i] in ShardsOf(w.store, q);
      assert SameShard(w, w', order[i]);
    }
    assert Map(ResultOf(w'.reports), order) == Map(ResultOf(w.reports), order);
    forall id | id in order ensures id in w'.reports {
      assert id in ShardsOf(w.store, q) && SameShard(w, w', id);
    }
  }

  lemma OtherRunOk(w: World, w': World, r: nat, q: nat)
    requires Touches(w, w', r) && q in w.store.runs && q != r && RunOk(w, q)
    ensures RunOk(w', q)
  {
    hide MergedOk, InBlock;
    if w.store.runs[q].status == Completed { OtherMerge(w, w', r, q); }
    if w.store.runs[q].status == Running {
      var id :| id in w.store.shards && w.store.shards[id].runId == q && w.store.shards[id].status != Completed;
      assert SameShard(w, w', id);
      assert w'.store.shards[id].status != Completed;
    }
  }

  lemma TouchesKeepsRuns(w: World, w': World, r: nat)
    requires RunsInv(w) && Touches(w, w', r) && RunOfShardsOk(w', r)
    ensures RunsInv(w')
  {
    hide ShardOk, HandedOk, ReportOk, RunOk, SameShard;
    forall id | id in w'.store.shards ensures KnownOk(w', id) {
      if w'.store.shards[id].runId != r {
        Known(w, id);
        OtherShardOk(w, w', r, id);
      }
    }
    forall id | id in w'.handed ensures id in w'.store.shards {
      if id !in w'.store.shards { HandedIsFiled(w, id); }
    }
    forall id | id in w'.reports ensures id in w'.store.shards {
      if id !in w'.store.shards { ReportIsFiled(w, id); }
    }
    forall q | q in w'.store.runs ensures RunOk(w', q) {
      if q != r {
        RunKnown(w, q);
        OtherRunOk(w, w', r, q);
      }
    }
  }

  lemma ReportIsFiled(w: World, id: nat)
    requires RunsInv(w) && id in w.reports
    ensures id in w.handed && id in w.store.shards
  {
    assert ReportOk(w, id);
  }

  lemma TouchesEvolves(w: World, w': World, r: nat)
    requires Touches(w, w', r) && RunEvolves(w, w', r)
    requires w'.store.searches == w.store.searches && w'.store.searchRun == w.store.searchRun
    ensures Evolves(w, w')
  {
    hide SameShard;
  }

  /** Run `r` and its shards change nothing but their statuses, and the run does not complete. */
  ghost predicate Restatus(w: World, w': World, r: nat)
  {
    && Touches(w, w', r)
    && w'.store.runs[r].config == w.store.runs[r].config && w'.store.runs[r].searchId == w.store.runs[r].searchId
    && w.store.runs[r].status != Completed && w'.store.runs[r].status != Completed
    && (!w.store.runs[r].Active() ==> w'.store.runs[r] == w.store.runs[r])
    && (forall k :: k in w.store.shards && w.store.shards[k].runId == r ==>
          w'.store.shards[k].index == w.store.shards[k].index)
    && w'.reports == w.reports && w'.pending == w.pending && w'.store.shardResults == w.store.shardResults
    && (forall k :: k in w.handed ==> k in w'.handed && w'.handed[k] == w.handed[k])
  }

  lemma RestatusShard(w: World, w': World, r: nat, k: nat)
    requires Restatus(w, w', r) && k in w.store.shards && w.store.shards[k].runId == r && KnownOk(w, k)
    requires StatusOk(w', k) && (k in w'.handed ==> k in w.handed || HandedOk(w', k))
    ensures KnownOk(w', k)
  {
    hide ShardConfig, StatusOk, SameShard, InBlock;
  }

  lemma RestatusRun(w: World, w': World, r: nat)
    requires Restatus(w, w', r) && RunOk(w, r)
    requires w'.store.runs[r].status == Running ==> Waiting(w'.store, r)
    ensures RunOk(w', r) && RunEvolves(w, w', r)
  {
    hide SameShard, InBlock, MergedOk;
  }

  lemma RestatusKeepsRuns(w: World, w': World, r: nat)
    requires RunsInv(w) && Restatus(w, w', r)
    requires forall k :: k in w.store.shards && w.store.shards[k].runId == r ==> StatusOk(w', k)
    requires forall k :: k in w'.handed && k !in w.handed ==> HandedOk(w', k)
    requires w'.store.runs[r].status == Running ==> Waiting(w'.store, r)
    requires w'.store.searches == w.store.searches && w'.store.searchRun == w.store.searchRun
    ensures RunsInv(w') && Evolves(w, w')
  {
    hide RunsInv, KnownOk, RunOk, HandedOk, StatusOk, SameShard, Waiting, Evolves, RunEvolves;
    RunKnown(w, r);
    RestatusRun(w, w', r);
    forall k | k in w'.store.shards && w'.store.shards[k].runId == r ensures KnownOk(w', k) {
      Known(w, k);
      RestatusShard(w, w', r, k);
    }
    TouchesKeepsRuns(w, w', r);
    TouchesEvolves(w, w', r);
  }

  // ----- scanning and claiming

  lemma OneShardAside(w: World, w': World, id: nat)
    requires id in w.store.shards && id in w'.store.shards && w'.store.shards[id].runId == w.store.shards[id].runId
    requires w'.store.shards == w.store.shards[id := w'.store.shards[id]]
    requires w'.reports == w.reports && w'.store.shardResults == w.store.shardResults
    requires forall k :: k in w.handed ==> k in w'.handed && w'.handed[k] == w.handed[k]
    requires forall k :: k in w'.handed ==> k in w.handed || k == id
    ensures ShardsAside(w, w', w.store.shards[id].runId)
  {
  }

  /** Rewriting one shard and its run, but only their statuses, is such a change. */
  lemma OneShardRestatus(w: World, w': World, run: Run, shard: Shard)
    requires Linked(w.store) && Linked(w'.store) && run.id in w.store.runs && shard.id in w.store.shards
    requires w.store.shards[shard.id] == shard.(status := w.store.shards[shard.id].status) && shard.runId == run.id
    requires w.store.runs[run.id] == run.(status := w.store.runs[run.id].status,
                                          startedUnix := w.store.runs[run.id].startedUnix)
    requires w.store.runs[run.id].status != Completed && run.status != Completed
    requires !w.store.runs[run.id].Active() ==> w.store.runs[run.id] == run
    requires w' == w.(store := w.store.(runs := w.store.runs[run.id := run],
        shards := w.store.shards[shard.id := shard]),
                      handed := w'.handed)
    requires forall k :: k in w.handed ==> k in w'.handed && w'.handed[k] == w.handed[k]
    requires forall k :: k in w'.handed ==> k in w.handed || k == shard.id
    ensures Restatus(w, w', run.id)
  {
    hide RunsAside, ShardsAside;
    OneRunAside(w, w', run.id);
    OneShardAside(w, w', shard.id);
  }

  lemma SkipRestatus(w: World, w': World, id: nat)
    requires Linked(w.store) && id in w.store.shards && KnownOk(w, id)
    requires !Claimable(w.store, id) && w.store.shards[id].status == Queued
    requires w' == w.(store := SkipShard(w.store, id)) && Linked(w'.store)
    ensures Restatus(w, w', w.store.shards[id].runId)
    ensures w'.store.runs[w.store.shards[id].runId].status == Cancelled
    ensures w'.store.searches == w.store.searches && w'.store.searchRun == w.store.searchRun
  {
    hide InBlock, HandedOk, ReportOk;
    var run := w.store.runs[w.store.shards[id].runId].(status := Cancelled);
    var shard := w.store.shards[id].(status := Cancelled);
    assert w'.store.runs == w.store.runs[run.id := run];
    assert w'.store.shards == w.store.shards[id := shard];
    OneShardRestatus(w, w', run, shard);
  }

  lemma SkipStatus(w: World, w': World, id: nat, k: nat)
    requires Linked(w.store) && id in w.store.shards && KnownOk(w, id)
    requires !Claimable(w.store, id) && w.store.shards[id].status == Queued
    requires w' == w.(store := SkipShard(w.store, id)) && Linked(w'.store)
    requires k in w.store.shards && w.store.shards[k].runId == w.store.shards[id].runId && KnownOk(w, k)
    ensures StatusOk(w', k)
  {
    hide InBlock, HandedOk, ReportOk, SkipShard, Linked;
    SkipShape(w.store, id);
  }

  lemma SkipShape(s: State, id: nat)
    requires Linked(s) && id in s.shards && !Claimable(s, id) && s.shards[id].status == Queued
    ensures var s', r := SkipShard(s, id), s.shards[id].runId;
            && s'.shards == s.shards[id := s.shards[id].(status := Cancelled)]
            && s'.runs == s.runs[r := if s.runs[r].Active() then s.runs[r].(status := Cancelled) else s.runs[r]]
  {
  }

  /** A shard the scan passes. */
  lemma SkipKeepsRuns(w: World, id: nat)
    requires RunsInv(w) && id in w.store.shards && !Claimable(w.store, id)
    ensures var w' := w.(store := SkipShard(w.store, id)); RunsInv(w') && Evolves(w, w')
  {
    hide RunsInv, KnownOk, SkipShard, Restatus, StatusOk, Claimable, Evolves, Waiting, Linked;
    RunsLinked(w);
    SkipKeepsLinks(w.store, id);
    var w', r := w.(store := SkipShard(w.store, id)), w.store.shards[id].runId;
    if w.store.shards[id].status == Queued {
      Known(w, id);
      SkipRestatus(w, w', id);
      forall k | k in w.store.shards && w.store.shards[k].runId == r ensures StatusOk(w', k) {
        Known(w, k);
        SkipStatus(w, w', id, k);
      }
      RestatusKeepsRuns(w, w', r);
    } else {
      NotSkipped(w.store, id);
      assert w' == w;
      EvolvesToItself(w);
    }
  }

  lemma NotSkipped(s: State, id: nat)
    requires Linked(s) && id in s.shards && s.shards[id].status != Queued
    ensures SkipShard(s, id) == s
  {
  }

  lemma EvolvesToItself(w: World)
    ensures Evolves(w, w)
  {
  }

  lemma TakeRestatus(w: World, w': World, id: nat, now: int)
    requires Linked(w.store) && id in w.store.shards && KnownOk(w, id) && Claimable(w.store, id)
    requires var (s, a) := TakeShard(w.store, id, now); w' == w.(store := s, handed := w.handed[id := a])
    requires Linked(w'.store)
    ensures id !in w.handed && w'.handed[id].shard.id == id
    ensures Restatus(w, w', w.store.shards[id].runId) && Waiting(w'.store, w.store.shards[id].runId)
    ensures HandedOk(w', id)
    ensures w'.store.searches == w.store.searches && w'.store.searchRun == w.store.searchRun
    ensures w'.store.shards.Keys == w.store.shards.Keys
  {
    hide InBlock, ReportOk, ShardConfig;
    var shard := w.store.shards[id].(status := Running);
    var run := w'.store.runs[shard.runId];
    OneShardRestatus(w, w', run, shard);
    assert w'.store.shards[id].status == Running;
  }

  lemma TakeStatus(w: World, w': World, id: nat, now: int, k: nat)
    requires Linked(w.store) && id in w.store.shards && KnownOk(w, id) && Claimable(w.store, id)
    requires var (s, a) := TakeShard(w.store, id, now); w' == w.(store := s, handed := w.handed[id := a])
    requires Linked(w'.store)
    requires k in w.store.shards && w.store.shards[k].runId == w.store.shards[id].runId && KnownOk(w, k)
    ensures StatusOk(w', k)
  {
    hide InBlock, HandedOk, ShardConfig;
  }

  /** The shard an agent gets was never handed out before. */
  lemma TakeKeepsRuns(w: World, id: nat, now: int)
    requires RunsInv(w) && id in w.store.shards && Claimable(w.store, id)
    ensures var (s, a) := TakeShard(w.store, id, now);
            var w' := w.(store := s, handed := w.handed[id := a]);
            RunsInv(w') && Evolves(w, w') && id !in w.handed && a.shard.id == id
  {
    hide RunsInv, KnownOk, TakeShard, Restatus, StatusOk, Evolves, Waiting, HandedOk;
    RunsLinked(w);
    TakeKeepsLinks(w.store, id, now);
    var (s, a) := TakeShard(w.store, id, now);
    var w', r := w.(store := s, handed := w.handed[id := a]), w.store.shards[id].runId;
    Known(w, id);
    TakeRestatus(w, w', id, now);
    forall k | k in w.store.shards && w.store.shards[k].runId == r ensures StatusOk(w', k) {
      Known(w, k);
      TakeStatus(w, w', id, now, k);
    }
    RestatusKeepsRuns(w, w', r);
  }

  lemma ScanPrefix(s: State, order: seq<nat>)
    requires Linked(s) && AllPassed(s, order) && order != []
    ensures AllPassed(s, order[..|order| - 1])
    ensures order[|order| - 1] in s.shards && !Claimable(SkipShards(s, order[..|order| - 1]), order[|order| - 1])
  {
    hide Claimable, SkipShards, Linked;
    var n := |order| - 1;
    var shorter := order[..n];
    forall i | 0 <= i < n ensures Passed(s, shorter, i) {
      assert shorter[..i] == order[..i];
      assert Passed(s, order, i);
    }
  }

  /** A whole scan without a claim. */
  lemma {:induction false} SkipsKeepRuns(w: World, order: seq<nat>)
    requires RunsInv(w) && AllPassed(w.store, order)
    ensures var w' := w.(store := SkipShards(w.store, order)); RunsInv(w') && Evolves(w, w')
  {
    hide Claimable, SkipShard, ShardOk, HandedOk, ReportOk, RunOk;
    if order != [] {
      var n := |order| - 1;
      ScanPrefix(w.store, order);
      SkipsKeepRuns(w, order[..n]);
      var before := w.(store := SkipShards(w.store, order[..n]));
      SkipKeepsRuns(before, order[n]);
      assert before.(store := SkipShard(before.store, order[n])) == w.(store := SkipShards(w.store, order));
      EvolvesTransitive(w, before, w.(store := SkipShards(w.store, order)));
    } else {
      assert w.(store := SkipShards(w.store, order)) == w;
    }
  }

  lemma EvolvesTransitive(a: World, b: World, c: World)
    requires Evolves(a, b) && Evolves(b, c)
    ensures Evolves(a, c)
  {
    forall r | r in a.store.runs ensures RunEvolves(a, c, r) {
      assert RunEvolves(a, b, r) && RunEvolves(b, c, r);
    }
  }

  // ----- cancelling

  lemma CancelShape(s: State, s': State, r: nat)
    requires r in s.runs && s.runs[r].Active() && s' == CancelRun(s, r)
    ensures s' == s.(runs := s'.runs, shards := s'.shards)
    ensures s'.runs == s.runs[r := s.runs[r].(status := Cancelled)] && s'.shards.Keys == s.shards.Keys
    ensures forall k :: k in s.shards && s.shards[k].runId != r ==> s'.shards[k] == s.shards[k]
    ensures forall k :: k in s.shards && s.shards[k].runId == r ==> s'.shards[k] == CancelShard(s.shards[k])
  {
  }

  lemma CancelledShards(w: World, w': World, r: nat)
    requires w'.store.shards.Keys == w.store.shards.Keys
    requires w' == w.(store := w.store.(runs := w'.store.runs, shards := w'.store.shards))
    requires forall k :: k in w.store.shards && w.store.shards[k].runId != r ==> w'.store.shards[k] == w.store.shards[k]
    requires forall k :: k in w.store.shards && w.store.shards[k].runId == r ==>
               w'.store.shards[k] == CancelShard(w.store.shards[k])
    ensures ShardsAside(w, w', r)
    ensures forall k :: k in w.store.shards ==> w'.store.shards[k].index == w.store.shards[k].index
  {
  }

  lemma CancelRestatus(w: World, w': World, r: nat)
    requires Linked(w.store) && r in w.store.runs && w.store.runs[r].Active()
    requires w' == w.(store := CancelRun(w.store, r)) && Linked(w'.store)
    ensures Restatus(w, w', r) && w'.store.runs[r].status == Cancelled
    ensures w'.store.searches == w.store.searches && w'.store.searchRun == w.store.searchRun
    ensures w'.store.shards.Keys == w.store.shards.Keys
  {
    hide CancelRun, CancelShard, RunsAside, Linked;
    CancelShape(w.store, w'.store, r);
    OneRunAside(w, w', r);
    CancelledShards(w, w', r);
  }

  lemma CancelStatus(w: World, w': World, r: nat, k: nat)
    requires Linked(w.store) && r in w.store.runs && w.store.runs[r].Active()
    requires w' == w.(store := CancelRun(w.store, r)) && Linked(w'.store)
    requires k in w.store.shards && w.store.shards[k].runId == r && KnownOk(w, k)
    ensures StatusOk(w', k)
  {
    hide InBlock, HandedOk, ReportOk;
  }

  lemma CancelKeepsRuns(w: World, id: nat)
    requires RunsInv(w)
    ensures var w' := w.(store := CancelRun(w.store, id)); RunsInv(w') && Evolves(w, w')
  {
    hide RunsInv, KnownOk, CancelRun, Restatus, StatusOk, Evolves, Waiting, Linked;
    var w' := w.(store := CancelRun(w.store, id));
    RunsLinked(w);
    CancelKeepsLinks(w.store, id);
    if id in w.store.runs && w.store.runs[id].Active() {
      CancelRestatus(w, w', id);
      forall k | k in w.store.shards && w.store.shards[k].runId == id ensures StatusOk(w', k) {
        Known(w, k);
        CancelStatus(w, w', id, k);
      }
      RestatusKeepsRuns(w, w', id);
    } else {
      NotCancelled(w.store, id);
      assert w' == w;
      EvolvesToItself(w);
    }
  }

  lemma NotCancelled(s: State, id: nat)
    requires id !in s.runs || !s.runs[id].Active()
    ensures CancelRun(s, id) == s
  {
  }
}
