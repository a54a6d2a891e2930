/** What holds of every sweep, whichever rungs turn out stable. */
module SweepProperties {
  import opened Core
  import opened Sweep

  /** A plan to climb: between 1 and 13 increasing loads, all positive. */
  ghost predicate IsPlan(ladder: seq<int>)
  {
    1 <= |ladder| <= 13 && Increasing(ladder) && ladder[0] >= 1
  }

  /** The measured loads are the first rungs of the ladder, in order. */
  ghost predicate OnLadder(s: AutoSearch)
  {
    && s.ladder == Ladder(s.config.startLoad, s.config.maxLoad) && IsPlan(s.ladder)
    && |s.steps| <= |s.ladder|
    && (forall i :: 0 <= i < |s.steps| ==> s.steps[i].load == s.ladder[i])
  }

  /** `high` is the highest load that passed and `low` the lowest that did not, 0 standing for none. */
  ghost predicate Bounds(steps: seq<Step>, high: int, low: int)
  {
    && (forall i :: 0 <= i < |steps| && steps[i].stable ==> steps[i].load <= high)
    && (high != 0 ==> exists i :: 0 <= i < |steps| && steps[i].stable && steps[i].load == high)
    && (forall i :: 0 <= i < |steps| && !steps[i].stable ==> 0 < low <= steps[i].load)
    && (low != 0 ==> exists i :: 0 <= i < |steps| && !steps[i].stable && steps[i].load == low)
  }

  ghost predicate Tracked(s: AutoSearch) { Bounds(s.steps, s.stableLoad, s.failedLoad) }

  /** A sweep waiting for the rung it queued: its first step passed and no two steps in a row failed. */
  ghost predicate Live(s: AutoSearch)
  {
    && OnLadder(s) && Tracked(s)
    && |s.steps| < |s.ladder| && s.nextLoad == s.ladder[|s.steps|] && s.provisionLoad == 0
    && (s.steps != [] ==> s.steps[0].stable)
    && (forall i, j :: 0 <= i < j < |s.steps| && j == i + 1 ==> s.steps[i].stable || s.steps[j].stable)
  }

  /** Why a sweep may stop: the start load failed, two rungs failed in a row, or the whole ladder was measured. */
  ghost predicate MayStop(s: AutoSearch)
  {
    var n := |s.steps|;
    || (n == 1 && !s.steps[0].stable)
    || (n >= 2 && !s.steps[n - 2].stable && !s.steps[n - 1].stable)
    || n == |s.ladder|
  }

  ghost predicate Finished(s: AutoSearch)
  {
    && OnLadder(s) && Tracked(s) && s.steps != [] && MayStop(s)
    && s.status == SearchCompleted && s.nextLoad == 0 && s.recommendedLoad == Knee(s.steps)
    && s.provisionLoad == (if Knee(s.steps) == 0 then 0 else Max(1, TruncDiv(Knee(s.steps) * 70, 100)))
  }

  /** CreateSearch plans a live sweep. */
  lemma PlannedSweepIsLive(s: AutoSearch)
    requires s.ladder == Ladder(s.config.startLoad, s.config.maxLoad) && s.steps == []
    requires s.stableLoad == s.failedLoad == s.provisionLoad == 0
    requires s.nextLoad == FirstRung(s.config.startLoad)
    ensures Live(s)
  {
    LadderShape(s.config.startLoad, s.config.maxLoad);
  }

  lemma {:induction false} FirstAboveRung(ladder: seq<int>, k: nat)
    requires Increasing(ladder) && k < |ladder|
    ensures FirstAbove(ladder, ladder[k]) == if k + 1 < |ladder| then Some(ladder[k + 1]) else None
  {
    if k > 0 {
      FirstAboveRung(ladder[1..], k - 1);
    } else {
      assert FirstAbove(ladder, ladder[0]) == FirstAbove(ladder[1..], ladder[0]);
      if |ladder| > 1 { assert ladder[1..][0] == ladder[1]; }
    }
  }

  lemma TailOfTwo(steps: seq<Step>)
    ensures UnstableTail(steps) >= 2
       <==> |steps| >= 2 && !steps[|steps| - 1].stable && !steps[|steps| - 2].stable
  {
    if steps != [] {
      var rest := steps[..|steps| - 1];
      if rest != [] { assert rest[|rest| - 1] == steps[|steps| - 2]; }
    }
  }

  /** Putting one more step on the curve, `stable` or not. */
  ghost predicate Recorded(s: AutoSearch, r: AutoSearch, stable: bool)
  {
    && OnLadder(r) && Tracked(r) && |r.steps| == |s.steps| + 1 && r.steps[..|s.steps|] == s.steps
    && r.steps[|s.steps|].stable == stable
    && r.id == s.id && r.config == s.config && r.runIds == s.runIds && r.ladder == s.ladder && r.status == s.status
    && r.provisionLoad == s.provisionLoad
  }

  lemma StableBounds(steps: seq<Step>, high: int, low: int, step: Step)
    requires Bounds(steps, high, low) && step.stable && step.load > 0
    ensures Bounds(steps + [step], Max(high, step.load), low)
  {
    var after, n := steps + [step], |steps|;
    assert after[n] == step && forall i :: 0 <= i < n ==> after[i] == steps[i];
    if high > step.load {
      var i :| 0 <= i < n && steps[i].stable && steps[i].load == high;
      assert after[i].stable && after[i].load == high;
    }
    if low != 0 {
      var i :| 0 <= i < n && !steps[i].stable && steps[i].load == low;
      assert !after[i].stable && after[i].load == low;
    }
  }

  lemma UnstableBounds(steps: seq<Step>, high: int, low: int, step: Step)
    requires Bounds(steps, high, low) && !step.stable && step.load > 0
    ensures Bounds(steps + [step], high, if low == 0 || step.load < low then step.load else low)
  {
    var after, n := steps + [step], |steps|;
    assert after[n] == step && forall i :: 0 <= i < n ==> after[i] == steps[i];
    if high != 0 {
      var i :| 0 <= i < n && steps[i].stable && steps[i].load == high;
      assert after[i].stable && after[i].load == high;
    }
    if low != 0 && low <= step.load {
      var i :| 0 <= i < n && !steps[i].stable && steps[i].load == low;
      assert !after[i].stable && after[i].load == low;
    }
  }

  lemma RecordTracks(s: AutoSearch, run: Run)
    requires Live(s) && run.config.Load() == s.nextLoad
    ensures Recorded(s, Record(s, run), IsRunStable(run))
    ensures Record(s, run).steps == s.steps + [StepFrom(s.nextLoad, run)]
  {
    hide Bounds, IsRunStable, Ladder;
    var step := StepFrom(s.nextLoad, run);
    assert step.load == s.nextLoad > 0 && step.stable == IsRunStable(run);
    if step.stable {
      StableBounds(s.steps, s.stableLoad, s.failedLoad, step);
    } else {
      UnstableBounds(s.steps, s.stableLoad, s.failedLoad, step);
    }
  }

  lemma FinishFinishes(r: AutoSearch)
    requires OnLadder(r) && Tracked(r) && r.steps != [] && MayStop(r) && r.provisionLoad == 0
    ensures Finished(Finish(r))
  {
    hide Knee, Ladder;
  }

  lemma NextRungIsLive(s: AutoSearch, r: AutoSearch, stable: bool)
    requires Live(s) && Recorded(s, r, stable) && !MayStop(r)
    ensures Live(r.(nextLoad := r.ladder[|r.steps|]))
  {
    hide Ladder;
    assert forall i :: 0 <= i < |s.steps| ==> r.steps[i] == s.steps[i];
  }

  lemma StartLoadFailed(s: AutoSearch, r: AutoSearch, stable: bool)
    requires Live(s) && Recorded(s, r, stable)
    ensures r.stableLoad == 0 && !stable <==> |r.steps| == 1 && !stable
  {
    hide Ladder;
    assert forall i :: 0 <= i < |s.steps| ==> r.steps[i] == s.steps[i];
    if |r.steps| > 1 {
      assert r.steps[0].stable && r.steps[0].load >= 1;
    }
  }

  lemma DecideClimbs(s: AutoSearch, r: AutoSearch, stable: bool)
    requires Live(s) && Recorded(s, r, stable)
    ensures var (after, next) := Decide(r, s.nextLoad, stable);
            && after.steps == r.steps
            && after.id == s.id && after.config == s.config && after.runIds == s.runIds && after.ladder == s.ladder
            && (next.Some? ==>
                  Live(after) && next.value == after.nextLoad && after.status == s.status && !MayStop(after))
            && (next.None? ==> Finished(after))
  {
    hide Knee, Ladder, UnstableTail, FirstAbove, Increasing, Tracked;
    FirstAboveRung(s.ladder, |s.steps|);
    TailOfTwo(r.steps);
    StartLoadFailed(s, r, stable);
    if MayStop(r) {
      FinishFinishes(r);
    } else {
      NextRungIsLive(s, r, stable);
    }
  }

  /** One finished run moves a live sweep to the next rung of its ladder, or finishes it for one of the reasons
      above. Each run adds one step, so `|ladder| - |steps|` counts down the runs that are left. */
  lemma AdvanceClimbs(s: AutoSearch, run: Run)
    requires Live(s) && run.config.Load() == s.nextLoad
    ensures var (after, next) := Advance(s, run);
            && after.steps == s.steps + [StepFrom(s.nextLoad, run)]
            && after.id == s.id && after.config == s.config && after.runIds == s.runIds && after.ladder == s.ladder
            && (next.Some? ==>
                  Live(after) && next.value == after.nextLoad && after.status == s.status && !MayStop(after))
            && (next.None? ==> Finished(after))
  {
    RecordTracks(s, run);
    DecideClimbs(s, Record(s, run), IsRunStable(run));
  }

  lemma OrderedSteps(s: AutoSearch)
    requires OnLadder(s)
    ensures OrderedByLoad(s.steps) && SortByLoad(s.steps) == s.steps && Knee(s.steps) == KneeOfOrdered(s.steps)
  {
    SortOfOrdered(s.steps);
  }

  /** What an operator reads off a finished sweep. */
  lemma FinishedBounds(s: AutoSearch)
    requires Finished(s)
    ensures var knee := s.recommendedLoad;
            && 0 <= knee <= s.stableLoad
            && ((exists i :: 0 <= i < |s.steps| && !s.steps[i].stable) <==> s.failedLoad != 0)
            && (s.failedLoad != 0 ==> knee < s.failedLoad)
            && (knee == 0 ==> s.provisionLoad == 0 && !s.steps[0].stable)
            && (knee > 0 ==> 1 <= s.provisionLoad <= knee && exists i :: 0 <= i < |s.steps| && s.ladder[i] == knee)
  {
    hide Ladder, Knee, SortByLoad;
    OrderedSteps(s);
    var n := StablePrefix(s.steps);
    if n > 0 {
      assert s.ladder[n - 1] == s.recommendedLoad;
    }
  }

  // ----- stopping early changes nothing

  /** The outcome of measuring every rung. */
  function FullSweep(ladder: seq<int>, measure: int -> Run): (steps: seq<Step>)
    ensures |steps| == |ladder| && forall i :: 0 <= i < |ladder| ==> steps[i] == StepFrom(ladder[i], measure(ladder[i]))
  {
    seq(|ladder|, i requires 0 <= i < |ladder| => StepFrom(ladder[i], measure(ladder[i])))
  }

  lemma FullSweepIsOrdered(ladder: seq<int>, measure: int -> Run)
    requires Increasing(ladder)
    ensures OrderedByLoad(FullSweep(ladder, measure))
  {
  }

  /** Each load is measured by a run configured with it; everything else about the runs is arbitrary. */
  ghost predicate Measures(measure: int -> Run)
  {
    forall load :: measure(load).config.Load() == load
  }

  /** Run the sweep to its end. */
  ghost function Drive(s: AutoSearch, measure: int -> Run): AutoSearch
    requires Live(s) && Measures(measure)
    decreases |s.ladder| - |s.steps|
  {
    AdvanceClimbs(s, measure(s.nextLoad));
    var (after, next) := Advance(s, measure(s.nextLoad));
    if next.None? then after else Drive(after, measure)
  }

  lemma {:induction false} PrefixKnee(steps: seq<Step>, n: nat)
    requires n <= |steps| && exists i :: 0 <= i < n && !steps[i].stable
    ensures StablePrefix(steps[..n]) == StablePrefix(steps) < n
  {
    var k := StablePrefix(steps);
    var j := StablePrefix(steps[..n]);
    if j < n {
      assert steps[..n][j] == steps[j];
    }
    if k < n {
      assert steps[..n][k] == steps[k];
    }
  }

  lemma {:induction false} DriveMeasuresPrefix(s: AutoSearch, measure: int -> Run)
    requires Live(s) && Measures(measure) && s.steps == FullSweep(s.ladder, measure)[..|s.steps|]
    ensures var end := Drive(s, measure);
            && Finished(end) && end.ladder == s.ladder && |s.steps| < |end.steps| <= |s.ladder| <= 13
            && end.steps == FullSweep(s.ladder, measure)[..|end.steps|]
    decreases |s.ladder| - |s.steps|
  {
    hide Ladder, Knee, Advance, StepFrom;
    var run := measure(s.nextLoad);
    AdvanceClimbs(s, run);
    var (after, next) := Advance(s, run);
    assert after.steps == FullSweep(s.ladder, measure)[..|after.steps|];
    if next.Some? {
      DriveMeasuresPrefix(after, measure);
    }
  }

  /** Early stopping is exact: for every outcome of every rung, the truncated sweep recommends the knee of the
      whole ladder, and it gets there within 13 runs. */
  lemma EarlyStoppingIsExact(s: AutoSearch, measure: int -> Run)
    requires Live(s) && s.steps == [] && Measures(measure)
    ensures var end := Drive(s, measure);
            && Finished(end) && 1 <= |end.steps| <= 13
            && end.recommendedLoad == Knee(FullSweep(s.ladder, measure))
  {
    hide Ladder, Drive, StepFrom, SortByLoad, Increasing;
    var full := FullSweep(s.ladder, measure);
    var end := Drive(s, measure);
    FullSweepIsOrdered(s.ladder, measure);
    DriveMeasuresPrefix(s, measure);
    OrderedSteps(end);
    SortOfOrdered(full);
    var n := |end.steps|;
    if n == |full| {
      assert end.steps == full;
    } else {
      assert !end.steps[n - 1].stable && end.steps[n - 1] == full[n - 1];
      PrefixKnee(full, n);
    }
  }
}
