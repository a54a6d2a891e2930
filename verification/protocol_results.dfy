/** Consequences for searches, loads, nonces and results, in every state the system can reach. */
module ProtocolResults {
  import opened Core
  import opened Folds
  import opened Names
  import opened ShardMerge
  import opened MergeProperties
  import opened Sweep
  import opened SweepProperties
  import opened StoreState
  import opened Protocol
  import opened ProtocolRuns
  import opened ProtocolSearches
  import opened ProtocolTheorems

  // ----- searches

  /** Index by index, a search's list of runs, its curve and its plan are about the same measurements. */
  ghost predicate Matches(w: World, s: AutoSearch)
  {
    && |s.steps| <= |s.runIds| <= |s.ladder| && Distinct(s.runIds)
    && (forall i :: 0 <= i < |s.runIds| ==>
          s.runIds[i] in w.store.runs && w.store.runs[s.runIds[i]].config.Load() == s.ladder[i])
    && (forall i :: 0 <= i < |s.steps| ==>
          && s.steps[i].runId == s.runIds[i] && s.steps[i].load == s.ladder[i]
          && w.store.runs[s.runIds[i]].status.Completed?
          && (s.steps[i].stable <==> IsRunStable(w.store.runs[s.runIds[i]])))
  }

  lemma SearchMatches(w: World, k: nat)
    requires Linked(w.store) && k in w.store.searches && SearchOk(w, k)
    ensures Matches(w, w.store.searches[k])
    ensures var s := w.store.searches[k];
            && (s.status == SearchRunning ==> Live(s) && |s.runIds| == |s.steps| + 1)
            && (s.status == SearchCompleted ==> Finished(s) && |s.runIds| == |s.steps|)
            && (s.status == SearchCancelled ==> NoneActive(w.store, s.runIds))
            && forall i :: 0 <= i < |s.runIds| - 1 ==>
                  s.runIds[i] in w.store.runs && !w.store.runs[s.runIds[i]].Active()
  {
    hide Live, Finished, IsRunStable;
    var s := w.store.searches[k];
    forall i | 0 <= i < |s.runIds|
      ensures s.runIds[i] in w.store.runs && w.store.runs[s.runIds[i]].config.Load() == s.ladder[i]
      ensures i < |s.steps| ==>
                && s.steps[i].runId == s.runIds[i] && s.steps[i].load == s.ladder[i]
                && w.store.runs[s.runIds[i]].status.Completed?
                && (s.steps[i].stable <==> IsRunStable(w.store.runs[s.runIds[i]]))
    {
      assert RungOk(w, s, i);
    }
    hide Linked, RungOk;
  }

  lemma MatchesOf(w: World, k: nat)
    requires Inv(w) && k in w.store.searches
    ensures Matches(w, w.store.searches[k])
    ensures var s := w.store.searches[k];
            && (s.status == SearchRunning ==> Live(s) && |s.runIds| == |s.steps| + 1)
            && (s.status == SearchCompleted ==> Finished(s) && |s.runIds| == |s.steps|)
            && (s.status == SearchCancelled ==> NoneActive(w.store, s.runIds))
            && forall i :: 0 <= i < |s.runIds| - 1 ==>
                  s.runIds[i] in w.store.runs && !w.store.runs[s.runIds[i]].Active()
  {
    SearchKnown(w, k);
    InvParts(w, k);
    hide Inv, SearchOk, SearchesInvExcept, Live, Finished, Matches, NoneActive;
    SearchMatches(w, k);
  }

  /** In every interleaving a search has at most one run queued or running, its last; its runs, steps and ladder match;
      while it runs exactly one run has no step yet, and once it has finished every run has one. */
  lemma SearchInEveryState(trace: seq<World>, events: seq<Event>, i: nat, k: nat)
    requires History(trace, events) && i < |trace| && k in trace[i].store.searches
    ensures var s := trace[i].store.searches[k];
            && Matches(trace[i], s)
            && (s.status == SearchRunning ==> Live(s) && |s.runIds| == |s.steps| + 1)
            && (s.status == SearchCompleted ==> Finished(s) && |s.runIds| == |s.steps|)
            && (forall a :: 0 <= a < |s.runIds| - 1 ==> !trace[i].store.runs[s.runIds[a]].Active())
  {
    Reachable(trace, events, i);
    SearchKnown(trace[i], k);
    InvParts(trace[i], k);
    hide Inv, SearchOk, SearchesInvExcept, History, Live, Finished, Matches;
    MatchesOf(trace[i], k);
  }

  /** After CancelSearch nothing of that search is ever queued, running or handed out again, whatever reports and
      advances still arrive. */
  lemma CancelledForGood(trace: seq<World>, events: seq<Event>, i: nat, j: nat, k: nat)
    requires History(trace, events) && i <= j < |trace|
    requires k in trace[i].store.searches && trace[i].store.searches[k].status == SearchCancelled
    ensures k in trace[j].store.searches && trace[j].store.searches[k] == trace[i].store.searches[k]
    ensures NoneActive(trace[j].store, trace[j].store.searches[k].runIds)
    ensures j < |events| && events[j].ShardsScanned? && events[j].claimed.Some? ==>
              events[j].claimed.value.run.id !in trace[j].store.searches[k].runIds
  {
    hide Next;
    HistoryKeeps(trace, events, i, j);
    Reachable(trace, events, j);
    assert k in trace[j].store.searches && trace[j].store.searches[k] == trace[i].store.searches[k];
    hide Inv, Keeps, SearchOk, Matches, Live, Finished, Linked;
    MatchesOf(trace[j], k);
    if j < |events| && events[j].ShardsScanned? && events[j].claimed.Some? {
      assert StepAt(trace, events, j);
      var a := events[j].claimed.value;
      assert events[j] == ShardsScanned(events[j].order, events[j].now, Some(a));
      ClaimIsSafe(trace[j], events[j].order, events[j].now, a, trace[j + 1]);
    }
  }

  // ----- load

  /** The shares of the first `n` shards, added up. */
  function SumShares(total: int, count: nat, n: nat): int
    requires count >= 1
  {
    if n == 0 then 0 else SumShares(total, count, n - 1) + ShareOf(total, count, n - 1)
  }

  lemma {:induction false} SumSharesIs(total: int, count: nat, n: nat)
    requires count >= 1
    ensures SumShares(total, count, n) == n * TruncDiv(total, count) + Min(n, Max(0, TruncMod(total, count)))
  {
    hide TruncDiv, TruncMod;
    if n > 0 {
      SumSharesIs(total, count, n - 1);
      var d := TruncDiv(total, count);
      assert n * d == (n - 1) * d + d;
    }
  }

  lemma RemainderRange(total: int, count: int)
    requires count >= 1
    ensures total >= 0 ==> 0 <= TruncMod(total, count) < count
    ensures total < 0 ==> -count < TruncMod(total, count) <= 0
  {
  }

  /** The shares add up to the load exactly when the load is not negative or divides evenly, and differ
      by at most one. */
  lemma SharesAddUp(total: int, count: nat, i: nat, j: nat)
    requires count >= 1
    ensures SumShares(total, count, count) == total <==> total >= 0 || TruncMod(total, count) == 0
    ensures -1 <= ShareOf(total, count, i) - ShareOf(total, count, j) <= 1
  {
    SumSharesIs(total, count, count);
    RemainderRange(total, count);
    assert total == count * TruncDiv(total, count) + TruncMod(total, count);
  }

  /** The load an agent generates for an assignment. */
  function AssignedLoad(config: RunConfig): int { if config.mode == VU then config.vus else config.rps }

  /** The loads of the first `n` shards of run `r`, as they were handed out. */
  function HandedLoad(handed: map<nat, Assignment>, r: nat, n: nat): int
  {
    if n == 0 then 0
    else
      var last := if r + n in handed then AssignedLoad(handed[r + n].run.config) else 0;
      HandedLoad(handed, r, n - 1) + last
  }

  lemma ShardDone(w: World, r: nat, i: nat)
    requires Inv(w) && r in w.store.runs && w.store.runs[r].status.Completed? && i < w.store.runs[r].config.ShardCount()
    ensures var id := r + 1 + i;
            && id in w.store.shards && w.store.shards[id].runId == r && w.store.shards[id].index == i
            && id in w.handed && id in w.reports && Linked(w.store) && KnownOk(w, id)
  {
    hide Inv, RunsInv, SearchesInvExcept, MergedOk, ReportOk, HandedOk, Linked;
    InvParts(w, 0);
    RunsLinked(w);
    RunKnown(w, r);
    assert InBlock(r, w.store.runs[r].config.ShardCount(), r + 1 + i);
    Known(w, r + 1 + i);
  }

  lemma ShardAssigned(w: World, r: nat, i: nat)
    requires Inv(w) && r in w.store.runs && w.store.runs[r].status.Completed? && i < w.store.runs[r].config.ShardCount()
    ensures r + 1 + i in w.handed
    ensures AssignedLoad(w.handed[r + 1 + i].run.config)
         == ShareOf(AssignedLoad(w.store.runs[r].config), w.store.runs[r].config.ShardCount(), i)
  {
    ShardDone(w, r, i);
    hide Inv, ShareOf, AssignedLoad, ShardConfig, ShardOk, ReportOk;
    ShareAssigned(w.store.runs[r].config, r, r + 1 + i, i);
  }

  lemma ShareAssigned(config: RunConfig, r: nat, id: nat, i: nat)
    ensures AssignedLoad(ShardConfig(config, r, id, i)) == ShareOf(AssignedLoad(config), config.ShardCount(), i)
  {
    hide ShareOf;
  }

  lemma {:induction false} HandedLoadIsShares(w: World, r: nat, n: nat)
    requires Inv(w) && r in w.store.runs && w.store.runs[r].status.Completed?
    requires n <= w.store.runs[r].config.ShardCount()
    ensures HandedLoad(w.handed, r, n)
         == SumShares(AssignedLoad(w.store.runs[r].config), w.store.runs[r].config.ShardCount(), n)
  {
    hide Inv, ShareOf, AssignedLoad;
    if n > 0 {
      HandedLoadIsShares(w, r, n - 1);
      ShardAssigned(w, r, n - 1);
    }
  }

  /** The loads handed out for a completed run add up to the load it was configured with. */
  lemma LoadIsConserved(trace: seq<World>, events: seq<Event>, i: nat, r: nat)
    requires History(trace, events) && i < |trace|
    requires r in trace[i].store.runs && trace[i].store.runs[r].status.Completed?
    requires AssignedLoad(trace[i].store.runs[r].config) >= 0
    ensures HandedLoad(trace[i].handed, r, trace[i].store.runs[r].config.ShardCount())
         == AssignedLoad(trace[i].store.runs[r].config)
  {
    Reachable(trace, events, i);
    hide Inv, History;
    var config := trace[i].store.runs[r].config;
    HandedLoadIsShares(trace[i], r, config.ShardCount());
    SharesAddUp(AssignedLoad(config), config.ShardCount(), 0, 0);
  }

  // ----- nonces

  lemma HandedWorkload(w: World, id: nat)
    requires Inv(w) && id in w.handed
    ensures w.handed[id].run.config.workloadId == WorkloadName(w.handed[id].run.id, id)
  {
    hide SearchesInv, ShardOk, ReportOk, RunOk, WorkloadName;
    assert HandedOk(w, id);
  }

  /** No two varied requests anywhere in the system start alike: the printed nonce tells the shard and the shard's own
      sequence number, whatever the hash and the prompts, on model targets and on web targets. */
  lemma NoncesNeverRepeat(trace: seq<World>, events: seq<Event>, i: nat, a: nat, b: nat, hash: string -> hex8,
                          m: nat, n: nat, prompt: string, prompt': string)
    requires History(trace, events) && i < |trace| && a in trace[i].handed && b in trace[i].handed
    requires a != b || m != n
    ensures var u, v := trace[i].handed[a].run.config.workloadId, trace[i].handed[b].run.config.workloadId;
            && VariationPrefix(hash, u, m) + prompt != VariationPrefix(hash, v, n) + prompt'
            && VariationQuery(u, m) != VariationQuery(v, n)
  {
    Reachable(trace, events, i);
    HandedWorkload(trace[i], a);
    HandedWorkload(trace[i], b);
    hide Inv, History, VariationPrefix, VariationQuery, WorkloadName;
    var u, v := trace[i].handed[a].run.config.workloadId, trace[i].handed[b].run.config.workloadId;
    var r, q := trace[i].handed[a].run.id, trace[i].handed[b].run.id;
    if VariationPrefix(hash, u, m) + prompt == VariationPrefix(hash, v, n) + prompt' {
      NonceDetermines(hash, r, a, m, prompt, q, b, n, prompt');
    }
    if VariationQuery(u, m) == VariationQuery(v, n) {
      QueryDetermines(r, a, m, q, b, n);
    }
  }

  // ----- results

  /** The numbers of a run's shards. */
  function Block(r: nat, count: nat): seq<nat> { seq(count, i requires 0 <= i < count => r + 1 + i) }

  /** What the shards of a run reported, in the order of their numbers. */
  function ReportsOf(w: World, r: nat): seq<RunResult>
    requires r in w.store.runs
  {
    Map(ResultOf(w.reports), Block(r, w.store.runs[r].config.ShardCount()))
  }

  lemma CutMember(b: seq<nat>, k: nat) returns (rest: seq<nat>)
    requires Distinct(b) && k < |b|
    ensures |rest| == |b| - 1 && Distinct(rest) && multiset(b) == multiset(rest) + multiset{b[k]}
    ensures forall x :: x in rest <==> x in b && x != b[k]
  {
    rest := b[..k] + b[k + 1..];
    assert b == b[..k] + [b[k]] + b[k + 1..];
    assert multiset(b) == multiset(b[..k]) + multiset{b[k]} + multiset(b[k + 1..]);
    forall x: nat ensures x in rest <==> x in b && x != b[k] { MemberOfRest(b, k, x); }
  }

  lemma MemberOfRest(b: seq<nat>, k: nat, x: nat)
    requires Distinct(b) && k < |b|
    ensures x in b[..k] + b[k + 1..] <==> x in b && x != b[k]
  {
    var rest := b[..k] + b[k + 1..];
    if x in b && x != b[k] {
      var i :| 0 <= i < |b| && b[i] == x;
      assert x == if i < k then rest[i] else rest[i - 1];
    }
    if x in rest {
      var i :| 0 <= i < |rest| && rest[i] == x;
      assert x == if i < k then b[i] else b[i + 1];
    }
  }

  lemma {:induction false} SameMembers(a: seq<nat>, b: seq<nat>)
    requires Distinct(a) && Distinct(b) && forall x :: x in a <==> x in b
    ensures multiset(a) == multiset(b)
    decreases |a|
  {
    if a == [] {
      assert forall i :: 0 <= i < |b| ==> b[i] in b;
    } else {
      assert a[0] in b;
      var k :| 0 <= k < |b| && b[k] == a[0];
      hide Distinct;
      var restA := CutMember(a, 0);
      var restB := CutMember(b, k);
      SameMembers(restA, restB);
    }
  }

  lemma MergeOrderIsBlock(w: World, r: nat)
    requires Inv(w) && r in w.store.runs && w.store.runs[r].status.Completed?
    ensures r in w.merges && multiset(w.merges[r]) == multiset(Block(r, w.store.runs[r].config.ShardCount()))
    ensures w.store.runs[r].result == Merged(w.store.runs[r].config, Map(ResultOf(w.reports), w.merges[r]))
  {
    hide Merged, Inv, RunsInv, SearchesInvExcept, InBlock, HandedOk;
    InvParts(w, 0);
    RunsLinked(w);
    RunKnown(w, r);
    var count := w.store.runs[r].config.ShardCount();
    var order, block := w.merges[r], Block(r, count);
    forall id: nat ensures id in order <==> InBlock(r, count, id) {
      if id in w.store.shards && w.store.shards[id].runId == r { Known(w, id); }
    }
    hide Inv, RunOk, OrderOf;
    forall id: nat ensures id in order <==> id in block { InThisBlock(r, count, id); }
    SameMembers(order, block);
  }

  lemma InThisBlock(r: nat, count: nat, id: nat)
    ensures id in Block(r, count) <==> InBlock(r, count, id)
    ensures Distinct(Block(r, count))
  {
    if InBlock(r, count, id) { assert Block(r, count)[id - r - 1] == id; }
  }

  /** The stored result of a completed run is the merge of exactly what its shards reported, each counted once; map
      order shows in nothing that the merge settles, and not in the verdict a search acts on. */
  lemma ResultIsMergeOfReports(trace: seq<World>, events: seq<Event>, i: nat, r: nat, counter: Counter)
    requires History(trace, events) && i < |trace|
    requires r in trace[i].store.runs && trace[i].store.runs[r].status.Completed?
    ensures var w := trace[i];
            var run, reports := w.store.runs[r], ReportsOf(w, r);
            && |reports| == run.config.ShardCount()
            && (forall id :: InBlock(r, run.config.ShardCount(), id) ==> id in w.reports)
            && counter.Read()(run.result) == SumBy(counter.Read(), reports)
            && Settled(run.result) == Settled(Merged(run.config, reports))
            && IsRunStable(run) == IsRunStable(run.(result := Merged(run.config, reports)))
  {
    Reachable(trace, events, i);
    hide Inv, History, Merged, Settled, IsRunStable;
    ResultMerged(trace[i], r, counter);
  }

  lemma ResultMerged(w: World, r: nat, counter: Counter)
    requires Inv(w) && r in w.store.runs && w.store.runs[r].status.Completed?
    ensures var run, reports := w.store.runs[r], ReportsOf(w, r);
            && |reports| == run.config.ShardCount()
            && (forall id :: InBlock(r, run.config.ShardCount(), id) ==> id in w.reports)
            && counter.Read()(run.result) == SumBy(counter.Read(), reports)
            && Settled(run.result) == Settled(Merged(run.config, reports))
            && IsRunStable(run) == IsRunStable(run.(result := Merged(run.config, reports)))
  {
    hide Inv, Merged, Settled, IsRunStable, AssignedLoad, ShareOf;
    MergeOrderIsBlock(w, r);
    var run, reports := w.store.runs[r], ReportsOf(w, r);
    forall id: nat | InBlock(r, run.config.ShardCount(), id) ensures id in w.reports {
      ShardDone(w, r, id - r - 1);
    }
    var merged := Map(ResultOf(w.reports), w.merges[r]);
    MapPermutation(ResultOf(w.reports), w.merges[r], Block(r, run.config.ShardCount()));
    ReorderedMerge(run, merged, reports, counter);
  }

  lemma ReorderedMerge(run: Run, merged: seq<RunResult>, reports: seq<RunResult>, counter: Counter)
    requires multiset(merged) == multiset(reports) && run.result == Merged(run.config, merged)
    ensures counter.Read()(run.result) == SumBy(counter.Read(), reports)
    ensures Settled(run.result) == Settled(Merged(run.config, reports))
    ensures IsRunStable(run) == IsRunStable(run.(result := Merged(run.config, reports)))
  {
    hide Merged, Settled, IsRunStable;
    MergingConserves(run.config, merged, counter);
    SumByPermutation(counter.Read(), merged, reports);
    MergingIgnoresOrder(run.config, merged, reports, Latency);
    VerdictIgnoresOrder(run, merged, reports);
    assert run == run.(result := Merged(run.config, merged));
  }
}
