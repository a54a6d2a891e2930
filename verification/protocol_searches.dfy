/** Creating, advancing and cancelling searches keeps the protocol's invariant. */
module ProtocolSearches {
  import opened Core
  import opened Sweep
  import opened SweepProperties
  import opened StoreState
  import opened Protocol
  import opened ProtocolRuns
  import opened ProtocolReports

  /** Runs stay as they are, and so does every search but `k`. */
  ghost predicate SearchAside(w: World, w': World, k: nat)
  {
    && Linked(w.store) && Linked(w'.store) && w.store.nextId <= w'.store.nextId
    && (forall r :: r in w.store.runs ==> r in w'.store.runs && w'.store.runs[r] == w.store.runs[r])
    && (forall r :: r in w.store.searchRun ==>
          && r in w'.store.searchRun && w'.store.searchRun[r] == w.store.searchRun[r]
          && (w.store.searchRun[r] != k ==> (r in w'.pending <==> r in w.pending)))
    && (forall q :: q in w.store.searches && q != k ==>
          q in w'.store.searches && w'.store.searches[q] == w.store.searches[q])
    && (forall q :: q in w'.store.searches && q !in w.store.searches ==> q == k)
    && (forall r :: r in w'.store.searchRun && r !in w.store.searchRun ==> w'.store.searchRun[r] == k)
  }

  lemma OtherSearchOk(w: World, w': World, k: nat, q: nat)
    requires SearchAside(w, w', k) && q in w.store.searches && q != k && SearchOk(w, q)
    ensures SearchOk(w', q)
  {
    hide Live, Finished, StepFrom;
    var s := w.store.searches[q];
    forall i | 0 <= i < |s.runIds| ensures RungOk(w', s, i) {
      assert RungOk(w, s, i);
    }
    hide Linked;
    if s.status == SearchCancelled {
      forall i | 0 <= i < |s.runIds| && s.runIds[i] in w'.store.runs ensures !w'.store.runs[s.runIds[i]].Active() {
        assert RungOk(w, s, i);
      }
    }
  }

  /** It is enough to look at search `k` and the runs of its list. */
  lemma OneSearchKeepsSearches(w: World, w': World, k: nat)
    requires SearchesInvExcept(w, k) && SearchAside(w, w', k)
    requires k in w'.store.searches ==> SearchOk(w', k)
    requires forall r :: r in w'.store.searchRun && w'.store.searchRun[r] == k ==> ListedOk(w', r)
    ensures SearchesInv(w')
  {
    hide SearchOk;
    forall q | q in w'.store.searches ensures SearchOk(w', q) {
      if q != k { OtherSearchOk(w, w', k, q); }
    }
    forall r | r in w'.store.searchRun ensures ListedOk(w', r) {
      if w'.store.searchRun[r] != k { assert ListedOk(w, r); }
    }
  }

  ghost predicate SearchesInvExcept(w: World, k: nat)
  {
    && Linked(w.store)
    && (forall q :: q in w.store.searches && q != k ==> SearchOk(w, q))
    && (forall r :: r in w.store.searchRun ==> ListedOk(w, r))
  }

  lemma InvParts(w: World, k: nat)
    requires Inv(w)
    ensures RunsInv(w) && SearchesInvExcept(w, k)
  {
    hide ShardOk, HandedOk, ReportOk, RunOk, SearchOk, ListedOk;
  }

  lemma SearchKnown(w: World, k: nat)
    requires Inv(w) && k in w.store.searches
    ensures SearchOk(w, k)
  {
    hide ShardOk, HandedOk, ReportOk, RunOk, SearchOk, ListedOk;
  }

  /** The runs and shards do not see what the searches are. */
  lemma SearchesDoNotMatter(w: World, w': World)
    requires RunsInv(w) && Linked(w'.store) && w'.pending <= w.pending
    requires w' == w.(store := w.store.(searches := w'.store.searches, searchRun := w'.store.searchRun),
                      pending := w'.pending)
    ensures RunsInv(w')
  {
    hide ShardOk, HandedOk, ReportOk, RunOk;
    assert Extends(w, w');
    hide RunsInv;
    ExtendsKeepsRuns(w, w');
  }

  // ----- queueing a rung

  /** What filing a search with one more run does to the store. */
  lemma QueueSearchShape(s: State, search: AutoSearch, load: int)
    requires Linked(s)
    requires forall r :: r in s.runs ==> r <= s.nextId
    requires forall id :: id in s.shards ==> id <= s.nextId
    ensures var s', id := QueueSearchRun(s, search, load), s.nextId + 1;
            && Linked(s') && id !in s.runs && id !in s.searchRun && s.nextId <= s'.nextId
            && id in s'.runs && s'.runs[id].status == Queued && s'.runs[id].searchId == Some(search.id)
            && s'.runs[id].config.Load() == load
            && s'.runs == s.runs[id := s'.runs[id]] && s'.searchRun == s.searchRun[id := search.id]
            && s'.searches == s.searches[search.id := search.(runIds := search.runIds + [id])]
  {
    QueueRunShape(s, WithLoad(search.config.run, load), Some(search.id));
  }

  /** The runs and shards do not see what the searches are. */
  lemma QueueSearchKeepsRuns(w: World, w': World, search: AutoSearch, load: int)
    requires RunsInv(w)
    requires w' == w.(store := QueueSearchRun(w.store, search, load), pending := w'.pending) && w'.pending <= w.pending
    ensures RunsInv(w')
  {
    NumbersBelow(w);
    QueueSearchShape(w.store, search, load);
    var config := WithLoad(search.config.run, load);
    var mid := w.(store := QueueRun(w.store, config, Some(search.id)));
    QueueRunKeepsRuns(w, config, Some(search.id));
    hide RunsInv, QueueRun, NewRun;
    SearchesDoNotMatter(mid, w');
  }

  lemma LiveIgnoresRuns(s: AutoSearch, runIds: seq<nat>)
    requires Live(s)
    ensures Live(s.(runIds := runIds)) && |s.steps| < |s.ladder|
  {
    hide Ladder, Increasing;
  }

  /** A search that is ready for its next rung is in order again once that rung is queued. */
  ghost predicate Ready(w: World, w': World, s: AutoSearch)
  {
    && Live(s) && s.status == SearchRunning && |s.runIds| == |s.steps| && Distinct(s.runIds)
    && (forall i :: 0 <= i < |s.runIds| ==> RungOk(w.(pending := w'.pending), s, i))
  }

  /** The store after queueing the next rung of `s`, seen from the searches. */
  ghost predicate RungQueued(w: World, w': World, s: AutoSearch)
  {
    var id := w.store.nextId + 1;
    && Linked(w.store) && Linked(w'.store) && w.store.nextId <= w'.store.nextId
    && id !in w.store.runs && id !in w.store.searchRun && id in w'.store.runs
    && w'.store.runs[id].status == Queued && w'.store.runs[id].searchId == Some(s.id)
    && w'.store.runs[id].config.Load() == s.nextLoad
    && w'.store.runs == w.store.runs[id := w'.store.runs[id]] && w'.store.searchRun == w.store.searchRun[id := s.id]
    && w'.store.searches == w.store.searches[s.id := s.(runIds := s.runIds + [id])]
  }

  lemma QueuedRung(w: World, w': World, s: AutoSearch, i: nat)
    requires Ready(w, w', s) && RungQueued(w, w', s) && i <= |s.runIds|
    ensures RungOk(w', s.(runIds := s.runIds + [w.store.nextId + 1]), i)
    ensures i < |s.runIds| ==> s.runIds[i] != w.store.nextId + 1
  {
    hide StepFrom, Linked;
    if i < |s.runIds| { assert RungOk(w.(pending := w'.pending), s, i); }
    hide RungOk, Increasing, Ladder, Tracked;
    if i == |s.runIds| {
      assert OnLadder(s) && i < |s.ladder| && s.nextLoad == s.ladder[i];
    }
  }

  lemma QueuedSearchOk(w: World, w': World, s: AutoSearch)
    requires Ready(w, w', s) && RungQueued(w, w', s) && s.id <= w.store.nextId
    ensures s.id in w'.store.searches && SearchOk(w', s.id)
  {
    hide RungOk, Live, Linked;
    var s' := s.(runIds := s.runIds + [w.store.nextId + 1]);
    LiveIgnoresRuns(s, s'.runIds);
    forall i | 0 <= i < |s'.runIds|
      ensures RungOk(w', s', i) && (i < |s.runIds| ==> s.runIds[i] != w.store.nextId + 1)
    {
      QueuedRung(w, w', s, i);
    }
  }

  lemma QueuedAside(w: World, w': World, s: AutoSearch)
    requires RungQueued(w, w', s)
    requires forall r :: r in w.store.searchRun && w.store.searchRun[r] != s.id ==>
          (r in w'.pending <==> r in w.pending)
    ensures SearchAside(w, w', s.id)
  {
    hide Linked;
  }

  lemma QueuedListed(w: World, w': World, s: AutoSearch, r: nat)
    requires RungQueued(w, w', s) && SearchesInvExcept(w, s.id)
    requires if s.id in w.store.searches then w.store.searches[s.id].runIds == s.runIds else s.runIds == []
    requires r in w'.store.searchRun && w'.store.searchRun[r] == s.id
    ensures ListedOk(w', r)
  {
    hide SearchOk;
    if r in w.store.searchRun { assert ListedOk(w, r); }
  }

  lemma QueueIsRungQueued(w: World, w': World, s: AutoSearch)
    requires RunsInv(w)
    requires w' == w.(store := QueueSearchRun(w.store, s, s.nextLoad), pending := w'.pending)
    ensures RungQueued(w, w', s)
  {
    hide RunsInv, QueueSearchRun, Linked;
    RunsLinked(w);
    NumbersBelow(w);
    QueueSearchShape(w.store, s, s.nextLoad);
  }

  lemma QueueKeepsInv(w: World, w': World, s: AutoSearch)
    requires RunsInv(w) && SearchesInvExcept(w, s.id) && Ready(w, w', s) && s.id <= w.store.nextId
    requires w' == w.(store := QueueSearchRun(w.store, s, s.nextLoad), pending := w'.pending) && w'.pending <= w.pending
    requires if s.id in w.store.searches then w.store.searches[s.id].runIds == s.runIds else s.runIds == []
    requires forall r :: r in w.store.searchRun && w.store.searchRun[r] != s.id ==>
          (r in w'.pending <==> r in w.pending)
    ensures Inv(w')
  {
    QueueIsRungQueued(w, w', s);
    QueueSearchKeepsRuns(w, w', s, s.nextLoad);
    assert Linked(w'.store) && (forall r :: r in w'.store.searchRun ==> r in w'.store.runs);
    hide RunsInv, QueueSearchRun, Ready, SearchOk, RungQueued, SearchesInvExcept, ListedOk, SearchAside;
    QueuedSearchOk(w, w', s);
    QueuedAside(w, w', s);
    forall r | r in w'.store.searchRun && w'.store.searchRun[r] == s.id ensures ListedOk(w', r) {
      QueuedListed(w, w', s, r);
    }
    OneSearchKeepsSearches(w, w', s.id);
  }

  lemma FreshSearch(w: World)
    requires Inv(w)
    ensures w.store.nextId + 1 !in w.store.searches
  {
    forall k | k in w.store.searches ensures k <= w.store.nextId { SearchKnown(w, k); }
    hide Inv;
  }

  lemma CreateIsQueue(s: State, plan: SearchConfig)
    ensures var search := NewSearch(s, plan);
            && CreateSearch(s, plan) == QueueSearchRun(s.(nextId := s.nextId + 1), search, search.nextLoad)
            && search.id == s.nextId + 1 && search.runIds == []
  {
    hide QueueSearchRun;
  }

  lemma NewSearchIsReady(w: World, w0: World, w': World, plan: SearchConfig)
    requires Inv(w) && 1 <= plan.startLoad <= plan.maxLoad
    ensures Ready(w0, w', NewSearch(w.store, plan))
  {
    hide Inv;
    PlannedSweepIsLive(NewSearch(w.store, plan));
  }

  lemma CreateSearchKeepsInv(w: World, plan: SearchConfig)
    requires Inv(w) && 1 <= plan.startLoad <= plan.maxLoad
    ensures Inv(w.(store := CreateSearch(w.store, plan)))
  {
    hide Inv, RunsInv, SearchesInv, SearchesInvExcept, QueueSearchRun, CreateSearch, NewSearch, Linked, Evolves, Ready;
    var w0, w' := w.(store := w.store.(nextId := w.store.nextId + 1)), w.(store := CreateSearch(w.store, plan));
    var s := NewSearch(w.store, plan);
    CreateIsQueue(w.store, plan);
    FreshSearch(w);
    InvParts(w, 0);
    TargetsDoNotMatter(w, w0);
    InvFromEvolves(w, w0);
    InvParts(w0, s.id);
    NewSearchIsReady(w, w0, w', plan);
    QueueKeepsInv(w0, w', s);
  }

  // ----- advancing

  /** The run that just completed is the one its running search waits for. */
  lemma PendingIsLast(w: World, r: nat)
    requires Linked(w.store) && SearchesInv(w) && r in w.pending && r in w.store.searchRun && RunOk(w, r)
    requires w.store.searches[w.store.searchRun[r]].status == SearchRunning
    ensures var s := w.store.searches[w.store.searchRun[r]];
            && w.store.runs[r].status == Completed
            && Live(s) && |s.runIds| == |s.steps| + 1 && s.runIds[|s.steps|] == r
            && w.store.runs[r].config.Load() == s.nextLoad && s.id <= w.store.nextId && Distinct(s.runIds)
    ensures forall i :: 0 <= i < |w.store.searches[w.store.searchRun[r]].runIds| ==>
              RungOk(w, w.store.searches[w.store.searchRun[r]], i)
  {
    hide SearchOk, RungOk, Live, MergedOk, Waiting, InBlock;
    var k := w.store.searchRun[r];
    assert SearchOk(w, k) && ListedOk(w, r);
    RunningSearchOk(w, k);
    var s := w.store.searches[k];
    var i :| 0 <= i < |s.runIds| && s.runIds[i] == r;
    LastRung(w, s, i);
  }

  lemma RunningSearchOk(w: World, k: nat)
    requires Linked(w.store) && k in w.store.searches && SearchOk(w, k)
    requires w.store.searches[k].status == SearchRunning
    ensures var s := w.store.searches[k];
            && Live(s) && |s.runIds| == |s.steps| + 1 && s.id == k <= w.store.nextId && Distinct(s.runIds)
            && forall i :: 0 <= i < |s.runIds| ==> RungOk(w, s, i)
  {
    hide Live, RungOk;
  }

  /** The only rung of a running search whose run can be pending is its last. */
  lemma LastRung(w: World, s: AutoSearch, i: nat)
    requires i < |s.runIds| == |s.steps| + 1 && Live(s) && RungOk(w, s, i) && s.runIds[i] in w.pending
    ensures i == |s.steps| && w.store.runs[s.runIds[i]].config.Load() == s.nextLoad
  {
    hide OnLadder, Tracked, StepFrom;
  }

  /** After the step every rung of the list is a completed run with its step. */
  lemma SteppedRung(w: World, r: nat, s: AutoSearch, after: AutoSearch, i: nat)
    requires r in w.store.runs && w.store.runs[r].status == Completed
    requires |s.runIds| == |s.steps| + 1 && s.runIds[|s.steps|] == r && Distinct(s.runIds) && i < |s.runIds|
    requires |s.steps| < |s.ladder| && s.nextLoad == s.ladder[|s.steps|]
    requires RungOk(w, s, i)
    requires after.steps == s.steps + [StepFrom(s.nextLoad, w.store.runs[r])]
    requires after.runIds == s.runIds && after.ladder == s.ladder && after.id == s.id
    ensures RungOk(w.(pending := w.pending - {r}), after, i)
  {
    hide StepFrom;
  }

  /** Search `s` has taken the step of run `r`, which leaves it as `after`. */
  ghost predicate Stepped(w: World, r: nat, s: AutoSearch, after: AutoSearch)
  {
    && Linked(w.store) && s.id in w.store.searches && w.store.searches[s.id] == s && s.id <= w.store.nextId
    && r in w.store.searchRun && w.store.searchRun[r] == s.id
    && after.id == s.id && after.config == s.config && after.runIds == s.runIds && Distinct(after.runIds)
    && |after.runIds| == |after.steps|
    && forall i :: 0 <= i < |after.runIds| ==> RungOk(w.(pending := w.pending - {r}), after, i)
  }

  lemma SteppedId(w: World, r: nat, s: AutoSearch, after: AutoSearch)
    requires Stepped(w, r, s, after)
    ensures after.id == s.id && after.config == s.config && r in w.store.searchRun && w.store.searchRun[r] == s.id
  {
    hide RungOk, Distinct, Linked;
  }

  lemma SteppedRungs(w: World, r: nat, s: AutoSearch, after: AutoSearch)
    requires Linked(w.store) && s.id in w.store.searches && w.store.searches[s.id] == s && s.id <= w.store.nextId
    requires r in w.store.searchRun && w.store.searchRun[r] == s.id
    requires w.store.runs[r].status == Completed && Live(s)
    requires |s.runIds| == |s.steps| + 1 && s.runIds[|s.steps|] == r && Distinct(s.runIds)
    requires forall i :: 0 <= i < |s.runIds| ==> RungOk(w, s, i)
    requires after.steps == s.steps + [StepFrom(s.nextLoad, w.store.runs[r])]
    requires after.runIds == s.runIds && after.ladder == s.ladder && after.id == s.id && after.config == s.config
    ensures Stepped(w, r, s, after)
  {
    assert r in w.store.runs;
    hide RungOk, StepFrom, OnLadder, Tracked, Linked;
    forall i | 0 <= i < |s.runIds| ensures RungOk(w.(pending := w.pending - {r}), after, i) {
      SteppedRung(w, r, s, after, i);
    }
  }

  lemma PendingSteps(w: World, r: nat)
    requires Linked(w.store) && SearchesInv(w) && r in w.pending && r in w.store.searchRun && RunOk(w, r)
    requires w.store.searches[w.store.searchRun[r]].status == SearchRunning
    ensures var s := w.store.searches[w.store.searchRun[r]];
            var (after, next) := Advance(s, w.store.runs[r]);
            && Stepped(w, r, s, after)
            && (next.Some? ==> Live(after) && next.value == after.nextLoad && after.status == SearchRunning)
            && (next.None? ==> Finished(after) && after.status == SearchCompleted)
  {
    PendingIsLast(w, r);
    var s := w.store.searches[w.store.searchRun[r]];
    hide SearchesInv, RunOk, RungOk, Advance, StepFrom, OnLadder, Tracked, Distinct, Live, Stepped;
    AdvanceClimbs(s, w.store.runs[r]);
    SteppedRungs(w, r, s, Advance(s, w.store.runs[r]).0);
  }

  lemma FinishedLinks(w: World, w': World, r: nat, s: AutoSearch, after: AutoSearch)
    requires Stepped(w, r, s, after)
    requires w' == w.(store := w.store.(searches := w.store.searches[s.id := after]), pending := w.pending - {r})
    ensures Linked(w'.store) && forall q :: q in w.store.searchRun ==> q in w.store.runs
  {
    hide RungOk, Distinct;
  }

  lemma FinishedAside(w: World, w': World, r: nat, s: AutoSearch, after: AutoSearch)
    requires Stepped(w, r, s, after) && Linked(w'.store)
    requires w' == w.(store := w.store.(searches := w.store.searches[s.id := after]), pending := w.pending - {r})
    ensures SearchAside(w, w', s.id)
  {
    hide Linked, RungOk;
  }

  lemma SameRung(w: World, w': World, s: AutoSearch, i: nat)
    requires i < |s.runIds| && RungOk(w, s, i)
    requires w' == w.(store := w.store.(searches := w'.store.searches))
    ensures RungOk(w', s, i)
  {
    hide StepFrom;
  }

  lemma FinishedSearchOk(w: World, w': World, r: nat, s: AutoSearch, after: AutoSearch)
    requires Stepped(w, r, s, after) && Linked(w'.store) && Finished(after) && after.status == SearchCompleted
    requires w' == w.(store := w.store.(searches := w.store.searches[s.id := after]), pending := w.pending - {r})
    ensures SearchOk(w', s.id)
  {
    hide Linked, StepFrom, Finished, RungOk, Distinct;
    OnLadderBounds(after);
    forall i | 0 <= i < |after.runIds| ensures RungOk(w', after, i) {
      assert RungOk(w.(pending := w.pending - {r}), after, i);
      SameRung(w.(pending := w.pending - {r}), w', after, i);
    }
  }

  /** The step that ends a search. */
  lemma FinishKeepsInv(w: World, w': World, r: nat, s: AutoSearch, after: AutoSearch)
    requires RunsInv(w) && SearchesInvExcept(w, s.id) && Stepped(w, r, s, after)
    requires Finished(after) && after.status == SearchCompleted
    requires w' == w.(store := w.store.(searches := w.store.searches[s.id := after]), pending := w.pending - {r})
    ensures Inv(w')
  {
    hide RunsInv, SearchOk, Finished, Stepped, SearchesInvExcept, ListedOk, SearchAside, Linked;
    RunsLinked(w);
    FinishedLinks(w, w', r, s, after);
    SearchesDoNotMatter(w, w');
    FinishedAside(w, w', r, s, after);
    FinishedSearchOk(w, w', r, s, after);
    assert s.id in w'.store.searches;
    forall q | q in w'.store.searchRun && w'.store.searchRun[q] == s.id ensures ListedOk(w', q) {
      FinishedListed(w, w', r, s, after, q);
    }
    OneSearchKeepsSearches(w, w', s.id);
  }

  lemma FinishedListed(w: World, w': World, r: nat, s: AutoSearch, after: AutoSearch, q: nat)
    requires SearchesInvExcept(w, s.id) && Stepped(w, r, s, after) && Linked(w'.store)
    requires w' == w.(store := w.store.(searches := w.store.searches[s.id := after]), pending := w.pending - {r})
    requires q in w.store.searchRun && w.store.searchRun[q] == s.id
    ensures ListedOk(w', q)
  {
    hide SearchOk, RungOk;
    assert ListedOk(w, q);
  }

  /** The step that queues the next rung. */
  lemma ClimbKeepsInv(w: World, w': World, r: nat, s: AutoSearch, after: AutoSearch)
    requires RunsInv(w) && SearchesInvExcept(w, s.id) && Stepped(w, r, s, after)
    requires Live(after) && after.status == SearchRunning
    requires w' == w.(store := QueueSearchRun(w.store, after, after.nextLoad), pending := w.pending - {r})
    ensures Inv(w')
  {
    hide RunsInv, SearchesInvExcept, QueueSearchRun, RungOk, Live, Linked, Distinct;
    assert Ready(w, w', after);
    QueueKeepsInv(w, w', after);
  }

  lemma OnLadderBounds(s: AutoSearch)
    requires Finished(s)
    ensures |s.steps| <= |s.ladder|
  {
  }

  /** A pending run without a running search is simply no longer pending. */
  lemma DropPending(w: World, r: nat)
    requires Inv(w)
    requires r in w.store.searchRun ==> w.store.searches[w.store.searchRun[r]].status != SearchRunning
    ensures Inv(w.(pending := w.pending - {r}))
  {
    hide RunsInv, SearchOk, ListedOk;
    var w' := w.(pending := w.pending - {r});
    RunsLinked(w);
    DropFromRuns(w, r);
    forall k | k in w'.store.searches ensures SearchOk(w', k) { DropFromSearch(w, r, k); }
    forall q | q in w'.store.searchRun ensures ListedOk(w', q) { DropFromList(w, r, q); }
  }

  lemma DropFromRuns(w: World, r: nat)
    requires RunsInv(w)
    ensures RunsInv(w.(pending := w.pending - {r}))
  {
    hide ShardOk, HandedOk, ReportOk, RunOk;
    var w' := w.(pending := w.pending - {r});
    assert Extends(w, w');
    ExtendsKeepsRuns(w, w');
  }

  lemma DropFromSearch(w: World, r: nat, k: nat)
    requires Linked(w.store) && k in w.store.searches && SearchOk(w, k)
    requires r in w.store.searchRun ==> w.store.searches[w.store.searchRun[r]].status != SearchRunning
    ensures SearchOk(w.(pending := w.pending - {r}), k)
  {
    hide StepFrom, Live, Finished, Distinct;
    var w', s := w.(pending := w.pending - {r}), w.store.searches[k];
    forall i | 0 <= i < |s.runIds| ensures RungOk(w', s, i) { assert RungOk(w, s, i); }
  }

  lemma DropFromList(w: World, r: nat, q: nat)
    requires Linked(w.store) && q in w.store.searchRun && ListedOk(w, q)
    ensures ListedOk(w.(pending := w.pending - {r}), q)
  {
  }

  lemma AdvanceKeepsInv(w: World, r: nat)
    requires Inv(w) && r in w.pending
    ensures Inv(w.(store := AdvanceStore(w.store, r), pending := w.pending - {r}))
  {
    if r !in w.store.searchRun || w.store.searches[w.store.searchRun[r]].status != SearchRunning {
      DropPending(w, r);
    } else {
      RunKnown(w, r);
      PendingSteps(w, r);
      InvParts(w, w.store.searchRun[r]);
      hide Inv, RunsInv, SearchesInvExcept, Advance, Finished, Live, QueueSearchRun, RungOk, Distinct;
      var s := w.store.searches[w.store.searchRun[r]];
      var w' := w.(store := AdvanceStore(w.store, r), pending := w.pending - {r});
      var (after, next) := Advance(s, w.store.runs[r]);
      if next.Some? {
        ClimbKeepsInv(w, w', r, s, after);
      } else {
        FinishKeepsInv(w, w', r, s, after);
      }
    }
  }

  // ----- cancelling

  lemma {:induction false} CancelRunsKeepRuns(w: World, ids: seq<nat>)
    requires RunsInv(w)
    ensures var w' := w.(store := CancelRuns(w.store, ids)); RunsInv(w') && Evolves(w, w') && NoneActive(w'.store, ids)
  {
    hide CancelRun, ShardOk, HandedOk, ReportOk, RunOk, Linked;
    if ids != [] {
      var n := |ids| - 1;
      CancelRunsKeepRuns(w, ids[..n]);
      var before := w.(store := CancelRuns(w.store, ids[..n]));
      var w' := w.(store := CancelRuns(w.store, ids));
      assert before.(store := CancelRun(before.store, ids[n])) == w';
      CancelKeepsRuns(before, ids[n]);
      CancelKeepsLinks(before.store, ids[n]);
      EvolvesTransitive(w, before, w');
      StaysInactive(before, w', ids, n);
    } else {
      assert w.(store := CancelRuns(w.store, ids)) == w;
    }
  }

  ghost predicate NoneActive(s: State, ids: seq<nat>)
  {
    forall i :: 0 <= i < |ids| && ids[i] in s.runs ==> !s.runs[ids[i]].Active()
  }

  lemma StaysInactive(before: World, w': World, ids: seq<nat>, n: nat)
    requires n == |ids| - 1 && NoneActive(before.store, ids[..n])
        && w' == before.(store := CancelRun(before.store, ids[n]))
    requires ids[n] in before.store.runs ==> ids[n] in w'.store.runs && !w'.store.runs[ids[n]].Active()
    ensures NoneActive(w'.store, ids)
  {
    forall i | 0 <= i < |ids| && ids[i] in w'.store.runs ensures !w'.store.runs[ids[i]].Active() {
      if i < n { assert ids[..n][i] == ids[i]; }
    }
  }

  /** Marking the search first. */
  function Marked(w: World, k: nat): World
    requires k in w.store.searches
  {
    w.(store := w.store.(searches := w.store.searches[k := w.store.searches[k].(status := SearchCancelled)]))
  }

  lemma MarkedAside(w: World, k: nat)
    requires Linked(w.store) && k in w.store.searches
    ensures Linked(Marked(w, k).store) && SearchAside(w, Marked(w, k), k)
  {
  }

  lemma MarkedRest(w: World, k: nat)
    requires k in w.store.searches && SearchAside(w, Marked(w, k), k) && SearchesInv(w)
    ensures SearchesInvExcept(Marked(w, k), k)
  {
    hide SearchOk;
    var w1 := Marked(w, k);
    forall q | q in w1.store.searches && q != k ensures SearchOk(w1, q) { OtherSearchOk(w, w1, k, q); }
    forall r | r in w1.store.searchRun ensures ListedOk(w1, r) { assert ListedOk(w, r); }
  }

  lemma MarkedRungs(w: World, k: nat)
    requires Linked(w.store) && k in w.store.searches && SearchOk(w, k)
    ensures forall i :: 0 <= i < |w.store.searches[k].runIds| ==>
          RungOk(Marked(w, k), Marked(w, k).store.searches[k], i)
  {
    hide Linked, Live, Finished, StepFrom;
    var w1 := Marked(w, k);
    forall i | 0 <= i < |w.store.searches[k].runIds| ensures RungOk(w1, w1.store.searches[k], i) {
      assert RungOk(w, w.store.searches[k], i);
    }
  }

  lemma CancelledSearchOk(w: World, w1: World, w': World, k: nat)
    requires Linked(w.store) && k in w.store.searches && SearchOk(w, k)
    requires w1.store == w.store.(searches := w.store.searches[k := w.store.searches[k].(status := SearchCancelled)])
    requires Linked(w'.store) && Evolves(w1, w') && NoneActive(w'.store, w.store.searches[k].runIds)
    requires forall i :: 0 <= i < |w.store.searches[k].runIds| ==> RungOk(w1, w1.store.searches[k], i)
    ensures k in w'.store.searches && SearchOk(w', k)
  {
    hide Live, Finished, StepFrom, Linked;
    var s := w'.store.searches[k];
    assert s == w1.store.searches[k];
    assert |s.runIds| <= |s.steps| + 1;
    forall i | 0 <= i < |s.runIds| ensures RungOk(w', s, i) { EvolvesKeepsRung(w1, w', s, i); }
  }

  lemma CancelSearchKeepsInv(w: World, k: nat)
    requires Inv(w)
    ensures Inv(w.(store := CancelSearch(w.store, k)))
  {
    var w' := w.(store := CancelSearch(w.store, k));
    if k in w.store.searches {
      var s := w.store.searches[k];
      var w1 := Marked(w, k);
      assert SearchOk(w, k);
      MarkedAside(w, k);
      MarkedRest(w, k);
      MarkedRungs(w, k);
      SearchesDoNotMatter(w, w1);
      CancelRunsKeepRuns(w1, s.runIds);
      assert w1.(store := CancelRuns(w1.store, s.runIds)) == w';
      CancelledSearchOk(w, w1, w', k);
      hide RunsInv, SearchOk, CancelRuns, CancelSearch, RungOk;
      EvolvedRest(w1, w', k);
    } else {
      hide Inv;
      assert w' == w;
    }
  }

  lemma EvolvedRest(w1: World, w': World, k: nat)
    requires RunsInv(w') && SearchesInvExcept(w1, k) && Evolves(w1, w')
    requires k in w'.store.searches && SearchOk(w', k)
    ensures Inv(w')
  {
    hide ShardOk, HandedOk, ReportOk, RunOk, SearchOk;
    forall q | q in w'.store.searches ensures SearchOk(w', q) {
      if q != k { EvolvesKeepsSearch(w1, w', q); }
    }
    forall r | r in w'.store.searchRun ensures ListedOk(w', r) {
      assert ListedOk(w1, r);
      assert RunEvolves(w1, w', r);
    }
  }

  // ----- every operation

  /** A scan that claims passed everything before its last shard, and handed that one out. */
  lemma ClaimSplit(s: State, order: seq<nat>, now: int, s': State, a: Assignment)
    requires Linked(s) && Claims(s, order, now, s', Some(a))
    ensures order != [] && AllPassed(s, order[..|order| - 1])
    ensures var mid, id := SkipShards(s, order[..|order| - 1]), order[|order| - 1];
            id in mid.shards && Claimable(mid, id) && TakeShard(mid, id, now) == (s', a)
  {
    hide SkipShard, TakeShard;
    ClaimPrefix(s, order);
  }

  lemma ClaimKeepsRuns(w: World, order: seq<nat>, now: int, a: Assignment, w': World)
    requires RunsInv(w) && Linked(w.store) && Claims(w.store, order, now, w'.store, Some(a))
    requires w' == w.(store := w'.store, handed := w.handed[a.shard.id := a])
    ensures RunsInv(w') && Evolves(w, w') && HandedGrows(w, w') && a.shard.id !in w.handed
  {
    hide RunsInv, TakeShard, Claimable, SkipShards, Distinct, Claims, Evolves;
    var n := |order| - 1;
    ClaimSplit(w.store, order, now, w'.store, a);
    SkipsKeepRuns(w, order[..n]);
    var mid := w.(store := SkipShards(w.store, order[..n]));
    TakeKeepsRuns(mid, order[n], now);
    EvolvesTransitive(w, mid, w');
  }

  lemma ScanKeepsRuns(w: World, order: seq<nat>, now: int, claimed: Option<Assignment>, w': World)
    requires RunsInv(w) && Next(w, ShardsScanned(order, now, claimed), w')
    ensures RunsInv(w') && Evolves(w, w') && HandedGrows(w, w')
    ensures claimed.Some? ==> claimed.value.shard.id !in w.handed
  {
    hide RunsInv, SkipShards, Evolves, Claims, HandedGrows, Linked, Passed;
    RunsLinked(w);
    if claimed.None? {
      NothingClaimed(w.store, order, now, w'.store);
      SkipsKeepRuns(w, order);
      assert w' == w.(store := SkipShards(w.store, order));
      NothingHanded(w, w');
    } else {
      ClaimKeepsRuns(w, order, now, claimed.value, w');
    }
  }

  lemma NothingClaimed(s: State, order: seq<nat>, now: int, s': State)
    requires Linked(s) && Claims(s, order, now, s', None)
    ensures AllPassed(s, order) && s' == SkipShards(s, order)
  {
    hide SkipShards, AllPassed;
  }

  lemma NothingHanded(w: World, w': World)
    requires w'.handed == w.handed
    ensures HandedGrows(w, w')
  {
  }

  lemma ClaimPrefix(s: State, order: seq<nat>)
    requires Linked(s) && Scan(s, order) && order != []
    ensures AllPassed(s, order[..|order| - 1]) && order[|order| - 1] in s.shards
  {
    hide Claimable, SkipShards, Linked;
    var n := |order| - 1;
    var shorter := order[..n];
    forall i | 0 <= i < n ensures Passed(s, shorter, i) {
      assert shorter[..i] == order[..i];
      assert Passed(s, order, i);
    }
  }

  lemma InvFromEvolves(w: World, w': World)
    requires Inv(w) && RunsInv(w') && Evolves(w, w')
    ensures Inv(w')
  {
    hide ShardOk, HandedOk, ReportOk, RunOk, SearchOk, ListedOk, Evolves;
    EvolvesKeepsSearches(w, w');
  }

  ghost predicate HandedGrows(w: World, w': World)
  {
    forall id :: id in w.handed ==> id in w'.handed && w'.handed[id] == w.handed[id]
  }

  /** Operations that leave the searches alone. */
  lemma NextEvolves(w: World, e: Event, w': World)
    requires Inv(w) && Next(w, e, w') && !e.SearchCreated? && !e.SearchAdvanced? && !e.SearchStopped?
    ensures RunsInv(w') && Evolves(w, w') && HandedGrows(w, w')
  {
    InvParts(w, 0);
    hide Inv, RunsInv, SearchesInvExcept, Claims, QueueRun, Evolves, HandedGrows, CancelRun, Reports, DeleteTarget;
    match e
    case TargetCreated(target) =>
      TargetsDoNotMatter(w, w');
      HandedSame(w, w');
    case TargetDeleted(id) =>
      DeleteShape(w.store, id);
      TargetsDoNotMatter(w, w');
      HandedSame(w, w');
    case RunCreated(config) =>
      QueueRunKeepsRuns(w, config, None);
      HandedSame(w, w');
    case ShardsScanned(order, now, claimed) => ScanKeepsRuns(w, order, now, claimed, w');
    case ShardReported(id, result, visited) =>
      ReportKeepsRuns(w, id, result, visited, w');
      HandedSame(w, w');
    case RunStopped(id) =>
      CancelKeepsRuns(w, id);
      HandedSame(w, w');
  }

  lemma DeleteShape(s: State, id: nat)
    ensures var s' := DeleteTarget(s, id).0; s' == s.(targets := s'.targets)
  {
    hide TargetInUse;
  }

  lemma HandedSame(w: World, w': World)
    requires w'.handed == w.handed
    ensures HandedGrows(w, w')
  {
  }

  /** Every operation keeps the invariant, in every order and with every result. */
  lemma NextKeepsInv(w: World, e: Event, w': World)
    requires Inv(w) && Next(w, e, w')
    ensures Inv(w')
  {
    hide Inv, RunsInv, Evolves, HandedGrows;
    match e
    case SearchCreated(plan) => CreateSearchKeepsInv(w, plan);
    case SearchAdvanced(run) => AdvanceKeepsInv(w, run);
    case SearchStopped(id) => CancelSearchKeepsInv(w, id);
    case _ =>
      NextEvolves(w, e, w');
      InvFromEvolves(w, w');
  }
}
