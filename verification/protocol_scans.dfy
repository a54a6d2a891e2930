/** What a scan for work does, exactly: which runs it cancels, and when it finds something to hand out. */
module ProtocolScans {
  import opened Core
  import opened StoreState
  import opened Protocol
  import opened ProtocolSearches

  /** `order` comes to a queued shard of run `r`. */
  ghost predicate MeetsQueued(s: State, order: seq<nat>, r: nat)
  {
    exists id :: id in order && id in s.shards && s.shards[id].runId == r && s.shards[id].status == Queued
  }

  /** A run that is active although its target is gone. */
  ghost predicate Homeless(s: State, r: nat)
    requires r in s.runs
  {
    s.runs[r].Active() && s.runs[r].config.targetId !in s.targets
  }

  /** What is left of run `r`, and of shards that were not passed, after passing `order`. */
  ghost predicate Scanned(s: State, order: seq<nat>, t: State, r: nat)
  {
    && Linked(t) && t.targets == s.targets && t.searches == s.searches && t.shards.Keys == s.shards.Keys
    && (forall id :: id in s.shards ==> t.shards[id].runId == s.shards[id].runId)
    && (forall id :: id in s.shards && id !in order ==> t.shards[id] == s.shards[id])
    && r in s.runs && r in t.runs
    && t.runs[r] == if Homeless(s, r) && MeetsQueued(s, order, r) then s.runs[r].(status := Cancelled) else s.runs[r]
  }

  lemma SkipOneShard(t: State, id: nat)
    requires id in t.shards && t.shards[id].runId in t.runs
    ensures var t' := SkipShard(t, id);
            && t'.targets == t.targets && t'.searches == t.searches && id in t'.shards
            && t'.shards == t.shards[id := t'.shards[id]] && t'.shards[id].runId == t.shards[id].runId
  {
    hide Claimable;
    assert t.shards == t.shards[id := t.shards[id]];
  }

  lemma SkipOneRun(t: State, id: nat, r: nat)
    requires Linked(t) && id in t.shards && r in t.runs
    ensures var t' := SkipShard(t, id);
            && r in t'.runs
            && t'.runs[r] == if Homeless(t, r) && t.shards[id].runId == r && t.shards[id].status == Queued
                             then t.runs[r].(status := Cancelled) else t.runs[r]
  {
  }

  lemma MeetsFurther(s: State, order: seq<nat>, r: nat, id: nat)
    requires id in s.shards
    ensures MeetsQueued(s, order + [id], r)
       <==> MeetsQueued(s, order, r) || (s.shards[id].runId == r && s.shards[id].status == Queued)
  {
    assert id in order + [id] && forall x :: x in order + [id] <==> x in order || x == id;
  }

  lemma ScannedFurther(s: State, order: seq<nat>, t: State, r: nat, id: nat)
    requires Scanned(s, order, t, r) && id in s.shards && id !in order
    ensures Scanned(s, order + [id], SkipShard(t, id), r)
  {
    hide SkipShard, MeetsQueued;
    SkipKeepsLinks(t, id);
    SkipOneShard(t, id);
    SkipOneRun(t, id, r);
    MeetsFurther(s, order, r, id);
  }

  lemma NothingScanned(s: State, r: nat)
    requires Linked(s) && r in s.runs
    ensures Scanned(s, [], s, r)
  {
    hide Linked;
  }

  lemma {:induction false} ScanOf(s: State, order: seq<nat>, r: nat)
    requires Linked(s) && Distinct(order) && (forall i :: 0 <= i < |order| ==> order[i] in s.shards) && r in s.runs
    ensures Scanned(s, order, SkipShards(s, order), r)
  {
    if order == [] {
      NothingScanned(s, r);
    } else {
      hide SkipShard, Scanned;
      var shorter, id := order[..|order| - 1], order[|order| - 1];
      ScanOf(s, shorter, r);
      ScannedFurther(s, shorter, SkipShards(s, shorter), r, id);
      assert order == shorter + [id];
    }
  }

  /** Passing other shards does not change whether a shard can be handed out. */
  lemma StillClaimable(s: State, order: seq<nat>, id: nat)
    requires Linked(s) && Distinct(order) && forall i :: 0 <= i < |order| ==> order[i] in s.shards
    requires id in s.shards && id !in order
    ensures Claimable(SkipShards(s, order), id) <==> Claimable(s, id)
  {
    ScanOf(s, order, s.shards[id].runId);
    hide Linked, SkipShards, Distinct, MeetsQueued;
  }

  lemma PassedNotClaimable(s: State, order: seq<nat>, i: nat)
    requires Linked(s) && AllPassed(s, order) && i < |order|
    ensures order[i] in s.shards && !Claimable(s, order[i])
  {
    hide Claimable, SkipShards, Linked;
    assert Passed(s, order, i);
    StillClaimable(s, order[..i], order[i]);
  }

  /** A scan hands something out if and only if there is something to hand out, whatever the order. */
  lemma ClaimsWhenPossible(w: World, order: seq<nat>, now: int, claimed: Option<Assignment>, w': World)
    requires Next(w, ShardsScanned(order, now, claimed), w')
    ensures claimed.Some? <==> exists id :: id in w.store.shards && Claimable(w.store, id)
  {
    hide Claimable, SkipShards;
    if claimed.Some? {
      ClaimSplit(w.store, order, now, w'.store, claimed.value);
      var shorter, id := order[..|order| - 1], order[|order| - 1];
      StillClaimable(w.store, shorter, id);
    } else {
      forall id | id in w.store.shards ensures !Claimable(w.store, id) {
        var i :| 0 <= i < |order| && order[i] == id;
        PassedNotClaimable(w.store, order, i);
      }
    }
  }

  lemma TakenRun(s: State, id: nat, now: int, r: nat)
    requires Linked(s) && id in s.shards && Claimable(s, id) && r in s.runs
    ensures var s' := TakeShard(s, id, now).0;
            && s'.searches == s.searches && r in s'.runs
            && (if s.shards[id].runId == r then s'.runs[r].status == Running else s'.runs[r] == s.runs[r])
  {
  }

  lemma TakenIsHoused(s: State, order: seq<nat>, mid: State, r: nat, id: nat)
    requires Scanned(s, order, mid, r) && id in mid.shards && Claimable(mid, id)
    ensures mid.shards[id].runId == r ==> s.runs[r].Active() && !Homeless(s, r)
  {
    hide MeetsQueued;
  }

  lemma ClaimCancels(s: State, order: seq<nat>, mid: State, r: nat, id: nat, now: int)
    requires Scanned(s, order, mid, r) && id in s.shards && id !in order && id in mid.shards && Claimable(mid, id)
    ensures var s' := TakeShard(mid, id, now).0;
            && r in s'.runs && s'.searches == s.searches
            && (s'.runs[r].status == Cancelled
                <==> s.runs[r].status == Cancelled || (Homeless(s, r) && MeetsQueued(s, order + [id], r)))
  {
    hide TakeShard, MeetsQueued, Claimable;
    MeetsFurther(s, order, r, id);
    TakenRun(mid, id, now, r);
    TakenIsHoused(s, order, mid, r, id);
  }

  lemma EmptyScanCancels(s: State, r: nat, order: seq<nat>)
    requires Linked(s) && AllPassed(s, order) && r in s.runs
    ensures var s' := SkipShards(s, order);
            && r in s'.runs && s'.searches == s.searches
            && (s'.runs[r].status == Cancelled
                <==> s.runs[r].status == Cancelled || (Homeless(s, r) && MeetsQueued(s, order, r)))
  {
    ScanOf(s, order, r);
    hide AllPassed, SkipShards, MeetsQueued, Homeless, Linked;
  }

  /** A scan cancels a run if and only if it comes to a queued shard of it while its target is gone. */
  lemma ScanCancels(s: State, r: nat, order: seq<nat>, now: int, s': State, claimed: Option<Assignment>)
    requires Linked(s) && Claims(s, order, now, s', claimed) && r in s.runs
    ensures r in s'.runs && s'.searches == s.searches
    ensures s'.runs[r].status == Cancelled
       <==> s.runs[r].status == Cancelled || (Homeless(s, r) && MeetsQueued(s, order, r))
  {
    hide SkipShards, TakeShard, MeetsQueued, Claimable, Homeless;
    if claimed.None? {
      EmptyScanCancels(s, r, order);
    } else {
      ClaimSplit(s, order, now, s', claimed.value);
      var shorter, id := order[..|order| - 1], order[|order| - 1];
      assert order == shorter + [id];
      ScanOf(s, shorter, r);
      hide Claims, Scanned;
      ClaimCancels(s, shorter, SkipShards(s, shorter), r, id, now);
    }
  }
}
