/** The automatic capacity sweep (internal/core/search.go): a ladder of loads is measured from the bottom up, and
    the knee of the curve becomes the recommended load. */
module Sweep {
  import opened Core
  import opened Folds

  datatype SearchStatus = SearchRunning | SearchCompleted | SearchCancelled
  datatype SearchConfig = SearchConfig(run: RunConfig, startLoad: int, maxLoad: int)
  datatype Step = Step(
    load: int, runId: nat, stable: bool, throughputRps: Float, outputPerSecond: real, ttftP95: nat, tpotP95: nat,
    latencyP95: nat, goodputPercent: real, completionPercent: real)
  datatype AutoSearch = AutoSearch(
    id: nat, status: SearchStatus, config: SearchConfig, runIds: seq<nat>, nextLoad: int, stableLoad: int,
    failedLoad: int, recommendedLoad: int, ladder: seq<int>, steps: seq<Step>, provisionLoad: int)

  const MAX_DOUBLINGS: nat := 12
  const PROVISION_HEADROOM_PERCENT: nat := 70
  const UNSTABLE_RUNGS_BEFORE_STOPPING: nat := 2

  // ----- is a run stable?

  /** The completion percentage a run is held to. */
  function CompletionLimit(config: RunConfig): real
  {
    if config.minCompletionPercent == 0.0 then 95.0 else config.minCompletionPercent
  }

  /** Results without a request lifecycle cannot be gated. */
  predicate CompletionShortfall(run: Run)
  {
    run.result.counts.issued != 0 && run.result.completionPercent < CompletionLimit(run.config)
  }

  predicate IsRunStable(run: Run)
  {
    var counts, config := run.result.counts, run.config;
    var total := if counts.total == 0 then counts.successes + counts.failures else counts.total;
    if total == 0 || CompletionShortfall(run) then false
    else
      var errorRate := (counts.failures * 100) as real / total as real;
      var p95 := if run.result.latency.p95 == 0 then run.result.p95Millis else run.result.latency.p95;
      if errorRate > config.maxErrorPercent || p95 > config.maxP95Millis then false
      else if config.maxTtftP95Millis > 0 && run.result.ttft.p95 > config.maxTtftP95Millis then false
      else config.minOutputTokensPerSecond == 0.0 || run.result.outputPerSecond >= config.minOutputTokensPerSecond
  }

  // ----- the ladder

  function Doublings(load: int, max: int, room: nat): seq<int>
    requires load >= 1
    decreases max - load
  {
    if load < max && room > 0 then [load] + Doublings(2 * load, max, room - 1) else []
  }

  function FirstRung(start: int): int { Max(start, 1) }
  function TopRung(start: int, max: int): int { Max(max, FirstRung(start)) }

  function Ladder(start: int, max: int): seq<int>
  {
    Doublings(FirstRung(start), TopRung(start, max), MAX_DOUBLINGS) + [TopRung(start, max)]
  }

  method SweepLadder(start: int, max: int) returns (ladder: seq<int>)
    ensures ladder == Ladder(start, max)
  {
    var first := start;
    if first < 1 { first := 1; }
    var top := max;
    if top < first { top := first; }
    ladder := DoublingRungs(first, top, MAX_DOUBLINGS);
    if |ladder| == 0 || ladder[|ladder| - 1] != top {
      ladder := ladder + [top];
    }
  }

  /** The loop of SweepLadder, which stops once it has `limit` rungs. */
  method DoublingRungs(first: int, top: int, limit: nat) returns (ladder: seq<int>)
    requires first >= 1 && limit >= 1
    ensures ladder == Doublings(first, top, limit)
    ensures forall i :: 0 <= i < |ladder| ==> ladder[i] < top
  {
    ladder := [];
    var load := first;
    while load < top
      invariant load >= 1 && |ladder| < limit
      invariant forall i :: 0 <= i < |ladder| ==> ladder[i] < top
      invariant ladder + Doublings(load, top, limit - |ladder|) == Doublings(first, top, limit)
      decreases top - load
    {
      ladder := ladder + [load];
      if |ladder| >= limit { break; }
      load := load * 2;
    }
  }

  ghost predicate Increasing(loads: seq<int>)
  {
    forall i, j :: 0 <= i < j < |loads| ==> loads[i] < loads[j]
  }

  lemma {:induction false} DoublingsShape(load: int, max: int, room: nat)
    requires load >= 1
    ensures var d := Doublings(load, max, room);
            && |d| <= room && Increasing(d)
            && (forall i :: 0 <= i < |d| ==> load <= d[i] < max)
            && (d != [] ==> d[0] == load)
            && (forall i, j :: 0 <= i < j < |d| && j == i + 1 ==> d[j] == 2 * d[i])
            && (d == [] ==> load >= max || room == 0)
            && (d != [] && |d| < room ==> max <= 2 * d[|d| - 1])
    decreases room
  {
    if load < max && room > 0 {
      DoublingsShape(2 * load, max, room - 1);
    }
  }

  /** Every planned sweep starts at the start load, doubles, ends exactly at the maximum and has at most 13 rungs. */
  lemma LadderShape(start: int, max: int)
    ensures var ladder := Ladder(start, max);
            && 1 <= |ladder| <= 13 && Increasing(ladder)
            && ladder[0] == FirstRung(start) >= 1 && ladder[|ladder| - 1] == TopRung(start, max)
            && (forall i, j :: 0 <= i < j < |ladder| - 1 && j == i + 1 ==> ladder[j] == 2 * ladder[i])
            && (1 < |ladder| < 13 ==> ladder[|ladder| - 1] <= 2 * ladder[|ladder| - 2])
  {
    DoublingsShape(FirstRung(start), TopRung(start, max), MAX_DOUBLINGS);
  }

  // ----- the knee

  ghost predicate OrderedByLoad(steps: seq<Step>)
  {
    forall i, j :: 0 <= i < j < |steps| ==> steps[i].load <= steps[j].load
  }

  /** How many steps were measured below `load`. */
  function Below(steps: seq<Step>, load: int): (n: nat)
    ensures n <= |steps| && (forall i :: 0 <= i < n ==> steps[i].load < load)
    ensures n < |steps| ==> load <= steps[n].load
  {
    if steps == [] || load <= steps[0].load then 0 else 1 + Below(steps[1..], load)
  }

  function InsertByLoad(step: Step, steps: seq<Step>): (r: seq<Step>)
    requires OrderedByLoad(steps)
    ensures OrderedByLoad(r) && multiset(r) == multiset(steps) + multiset{step}
  {
    var n := Below(steps, step.load);
    PutIn(step, steps, n);
    steps[..n] + [step] + steps[n..]
  }

  function SortByLoad(steps: seq<Step>): (r: seq<Step>)
    ensures OrderedByLoad(r) && multiset(r) == multiset(steps)
  {
    if steps == [] then [] else
      assert steps == [steps[0]] + steps[1..];
      InsertByLoad(steps[0], SortByLoad(steps[1..]))
  }

  lemma {:induction false} SortOfOrdered(steps: seq<Step>)
    requires OrderedByLoad(steps)
    ensures SortByLoad(steps) == steps
  {
    if steps != [] {
      SortOfOrdered(steps[1..]);
    }
  }

  /** How many steps pass before the first failure. */
  function StablePrefix(steps: seq<Step>): (n: nat)
    ensures n <= |steps| && (forall i :: 0 <= i < n ==> steps[i].stable) && (n < |steps| ==> !steps[n].stable)
  {
    if steps == [] || !steps[0].stable then 0 else 1 + StablePrefix(steps[1..])
  }

  function KneeOfOrdered(steps: seq<Step>): int
  {
    var n := StablePrefix(steps);
    if n == 0 then 0 else steps[n - 1].load
  }

  function Knee(steps: seq<Step>): int { KneeOfOrdered(SortByLoad(steps)) }

  method KneeLoad(steps: seq<Step>) returns (knee: int)
    ensures knee == Knee(steps)
  {
    var ordered := SortByLoad(steps);
    knee := 0;
    for i := 0 to |ordered|
      invariant i <= StablePrefix(ordered)
      invariant knee == if i == 0 then 0 else ordered[i - 1].load
    {
      if !ordered[i].stable { return; }
      knee := ordered[i].load;
    }
  }

  /** Capacity held at `load`: it was measured, and everything measured at or below it was stable. */
  ghost predicate HeldAt(steps: seq<Step>, load: int)
  {
    && (exists s :: s in steps && s.load == load)
    && (forall s :: s in steps && s.load <= load ==> s.stable)
  }

  /** No load was measured twice with different outcomes. */
  ghost predicate Consistent(steps: seq<Step>)
  {
    forall s, t :: s in steps && t in steps && s.load == t.load ==> s.stable == t.stable
  }

  lemma KneeOfOrderedIsHighest(steps: seq<Step>, load: int)
    requires OrderedByLoad(steps) && Consistent(steps)
    ensures HeldAt(steps, load) ==> load <= KneeOfOrdered(steps) && HeldAt(steps, KneeOfOrdered(steps))
    ensures (forall l :: !HeldAt(steps, l)) ==> KneeOfOrdered(steps) == 0
  {
    var n := StablePrefix(steps);
    if n > 0 {
      var knee := steps[n - 1].load;
      assert steps[n - 1] in steps;
      forall s | s in steps && s.load <= knee ensures s.stable {
        var i :| 0 <= i < |steps| && steps[i] == s;
        if i >= n { assert s.load == knee; }
      }
      assert HeldAt(steps, knee);
    }
    if n < |steps| && HeldAt(steps, load) {
      var s :| s in steps && s.load == load;
      assert steps[n] in steps && load < steps[n].load;
      var i :| 0 <= i < |steps| && steps[i] == s;
      assert i < n;
    }
  }

  /** The knee is the highest load that held continuously from the bottom, and 0 when none did, in whatever order
      the steps were recorded or sorted. */
  lemma KneeIsHighestHeldLoad(steps: seq<Step>, load: int)
    requires Consistent(steps)
    ensures HeldAt(steps, load) ==> load <= Knee(steps) && HeldAt(steps, Knee(steps))
    ensures (forall l :: !HeldAt(steps, l)) ==> Knee(steps) == 0
  {
    var sorted := SortByLoad(steps);
    forall s: Step ensures s in steps <==> s in sorted {
      assert s in steps <==> s in multiset(steps);
      assert s in sorted <==> s in multiset(sorted);
    }
    assert forall l :: HeldAt(steps, l) <==> HeldAt(sorted, l);
    KneeOfOrderedIsHighest(sorted, load);
  }

  // ----- advancing the sweep by one finished run

  function StepFrom(load: int, run: Run): Step
  {
    var r := run.result;
    Step(load, run.id, IsRunStable(run), r.throughputRps, r.outputPerSecond, r.ttft.p95, r.tpot.p95,
         if r.latency.p95 == 0 then r.p95Millis else r.latency.p95, r.goodputPercent, r.completionPercent)
  }

  function UnstableTail(steps: seq<Step>): nat
  {
    if steps == [] || steps[|steps| - 1].stable then 0 else 1 + UnstableTail(steps[..|steps| - 1])
  }

  function Finish(search: AutoSearch): AutoSearch
  {
    var knee := Knee(search.steps);
    search.(status := SearchCompleted, nextLoad := 0, recommendedLoad := knee,
            provisionLoad := if knee == 0 then search.provisionLoad
                             else Max(TruncDiv(knee * PROVISION_HEADROOM_PERCENT, 100), 1))
  }

  function FirstAbove(ladder: seq<int>, load: int): Option<int>
  {
    if ladder == [] then None else if ladder[0] > load then Some(ladder[0]) else FirstAbove(ladder[1..], load)
  }

  function Record(search: AutoSearch, run: Run): AutoSearch
  {
    var load := run.config.Load();
    var ladder := if search.ladder == [] then Ladder(search.config.startLoad, search.config.maxLoad) else search.ladder;
    search.(ladder := ladder, steps := search.steps + [StepFrom(load, run)],
            stableLoad := if IsRunStable(run) then Max(search.stableLoad, load) else search.stableLoad,
            failedLoad := if !IsRunStable(run) && (search.failedLoad == 0 || load < search.failedLoad) then load
                          else search.failedLoad)
  }

  /** What to do once a rung at `load` is on the curve: stop, or name the next load. */
  function Decide(search: AutoSearch, load: int, stable: bool): (AutoSearch, Option<int>)
  {
    if search.stableLoad == 0 && !stable then (Finish(search), None)
    else if UnstableTail(search.steps) >= UNSTABLE_RUNGS_BEFORE_STOPPING then (Finish(search), None)
    else match FirstAbove(search.ladder, load)
         case Some(rung) => (search.(nextLoad := rung), Some(rung))
         case None => (Finish(search), None)
  }

  /** AdvanceSearch: the search after a finished run, and the next load if there is one. */
  function Advance(search: AutoSearch, run: Run): (AutoSearch, Option<int>)
  {
    Decide(Record(search, run), run.config.Load(), IsRunStable(run))
  }

  method ConsecutiveUnstableTail(steps: seq<Step>) returns (count: nat)
    ensures count == UnstableTail(steps)
  {
    count := 0;
    var i := |steps| - 1;
    assert steps[..|steps|] == steps;
    while i >= 0
      invariant -1 <= i < |steps|
      invariant UnstableTail(steps) == count + UnstableTail(steps[..i + 1])
    {
      assert steps[..i + 1][..i] == steps[..i];
      if steps[i].stable { break; }
      count := count + 1;
      i := i - 1;
    }
  }

  method NextRung(ladder: seq<int>, load: int) returns (rung: Option<int>)
    ensures rung == FirstAbove(ladder, load)
  {
    for i := 0 to |ladder|
      invariant FirstAbove(ladder, load) == FirstAbove(ladder[i..], load)
    {
      if ladder[i] > load { return Some(ladder[i]); }
    }
    return None;
  }

  /** The search as AdvanceSearch and finishSearch update it, through a pointer to the record. */
  class SearchRecord {
    const id: nat
    const config: SearchConfig
    const runIds: seq<nat>
    var status: SearchStatus
    var nextLoad: int
    var stableLoad: int
    var failedLoad: int
    var recommendedLoad: int
    var ladder: seq<int>
    var steps: seq<Step>
    var provisionLoad: int

    ghost function Value(): AutoSearch
      reads this
    {
      AutoSearch(id, status, config, runIds, nextLoad, stableLoad, failedLoad, recommendedLoad, ladder, steps,
                 provisionLoad)
    }

    constructor (search: AutoSearch)
      ensures Value() == search
    {
      id, config, runIds := search.id, search.config, search.runIds;
      status, nextLoad, stableLoad := search.status, search.nextLoad, search.stableLoad;
      failedLoad, recommendedLoad := search.failedLoad, search.recommendedLoad;
      ladder, steps, provisionLoad := search.ladder, search.steps, search.provisionLoad;
    }

    method Snapshot() returns (search: AutoSearch)
      ensures search == Value()
    {
      search := AutoSearch(id, status, config, runIds, nextLoad, stableLoad, failedLoad, recommendedLoad, ladder,
                           steps, provisionLoad);
    }

    method FinishSearch()
      modifies this
      ensures Value() == Finish(old(Value()))
    {
      hide Knee;
      status := SearchCompleted;
      nextLoad := 0;
      var knee := KneeLoad(steps);
      recommendedLoad := knee;
      if knee == 0 { return; }
      provisionLoad := TruncDiv(knee * PROVISION_HEADROOM_PERCENT, 100);
      if provisionLoad < 1 {
        provisionLoad := 1;
      }
    }

    /** The first half of AdvanceSearch: the finished rung goes on the curve. */
    method RecordRung(run: Run)
      modifies this
      ensures Value() == Record(old(Value()), run)
    {
      var load := run.config.vus;
      if run.config.mode == RPS {
        load := run.config.rps;
      }
      if |ladder| == 0 {
        ladder := SweepLadder(config.startLoad, config.maxLoad);
      }
      steps := steps + [StepFrom(load, run)];
      var stable := IsRunStable(run);
      if stable {
        stableLoad := Max(stableLoad, load);
      } else if failedLoad == 0 || load < failedLoad {
        failedLoad := load;
      }
    }

    method AdvanceSearch(run: Run) returns (next: int, more: bool)
      modifies this
      ensures var (after, rung) := Advance(old(Value()), run);
              Value() == after && more == rung.Some? && (more ==> next == rung.value) && (!more ==> next == 0)
    {
      RecordRung(run);
      if stableLoad == 0 && !IsRunStable(run) {
        FinishSearch();
        return 0, false;
      }
      var tail := ConsecutiveUnstableTail(steps);
      if tail >= UNSTABLE_RUNGS_BEFORE_STOPPING {
        FinishSearch();
        return 0, false;
      }
      var rung := NextRung(ladder, run.config.Load());
      if rung.Some? {
        nextLoad := rung.value;
        return rung.value, true;
      }
      FinishSearch();
      return 0, false;
    }
  }
}
