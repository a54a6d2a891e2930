/** Merging the per-second rows of several shards (internal/store/store.go, `mergeTimelinePoint` and
    `sortedTimeline`). */
module TimelineMerge {
  import opened Core
  import opened Folds

  const NO_POINT := TimelinePoint(0, 0, 0, 0, 0, 0, 0, 0, 0, 0, 0)

  function MergePoint(current: TimelinePoint, next: TimelinePoint): TimelinePoint
  {
    TimelinePoint(
      next.second, current.requests + next.requests, current.successes + next.successes,
      current.failures + next.failures, current.issued + next.issued, current.completed + next.completed,
      current.cancelled + next.cancelled, current.active + next.active, current.waiting + next.waiting,
      current.targetLoad + next.targetLoad, Max(current.p95, next.p95))
  }

  /** One row per second, in ascending order; a row for a second that is already there is merged into it. */
  function AddPoint(timeline: seq<TimelinePoint>, p: TimelinePoint): seq<TimelinePoint>
  {
    if timeline == [] || p.second < timeline[0].second then [MergePoint(NO_POINT, p)] + timeline
    else if p.second == timeline[0].second then [MergePoint(timeline[0], p)] + timeline[1..]
    else [timeline[0]] + AddPoint(timeline[1..], p)
  }

  function MergedTimeline(points: seq<TimelinePoint>): seq<TimelinePoint>
  {
    FoldLeft(AddPoint, [], points)
  }

  ghost predicate Ascending(timeline: seq<TimelinePoint>)
  {
    forall i, j :: 0 <= i < j < |timeline| ==> timeline[i].second < timeline[j].second
  }

  // ----- the order of the rows does not matter

  lemma {:induction false} AddPointCommutes(t: seq<TimelinePoint>, p: TimelinePoint, q: TimelinePoint)
    ensures AddPoint(AddPoint(t, p), q) == AddPoint(AddPoint(t, q), p)
  {
    if t != [] && t[0].second < p.second && t[0].second < q.second {
      AddPointCommutes(t[1..], p, q);
      assert AddPoint(t, p)[1..] == AddPoint(t[1..], p) && AddPoint(t, q)[1..] == AddPoint(t[1..], q);
    }
  }

  lemma MergedTimelineIgnoresOrder(a: seq<TimelinePoint>, b: seq<TimelinePoint>)
    requires multiset(a) == multiset(b)
    ensures MergedTimeline(a) == MergedTimeline(b)
  {
    forall t, p, q ensures AddPoint(AddPoint(t, p), q) == AddPoint(AddPoint(t, q), p) {
      AddPointCommutes(t, p, q);
    }
    FoldPermutation(AddPoint, [], a, b);
  }

  // ----- what a merged row holds

  lemma {:induction false} AddPointAscends(t: seq<TimelinePoint>, p: TimelinePoint)
    requires Ascending(t)
    ensures var r := AddPoint(t, p);
            && Ascending(r) && r != []
            && (r[0].second == p.second || (t != [] && r[0].second == t[0].second))
    ensures forall i :: 0 <= i < |AddPoint(t, p)| ==>
              || AddPoint(t, p)[i].second == p.second
              || exists j :: 0 <= j < |t| && t[j].second == AddPoint(t, p)[i].second
  {
    if t != [] && t[0].second < p.second {
      AddPointAscends(t[1..], p);
      var r := AddPoint(t[1..], p);
      forall i | 0 <= i < |r| ensures t[0].second < r[i].second {
        if r[i].second != p.second {
          var j :| 0 <= j < |t[1..]| && t[1..][j].second == r[i].second;
          assert t[j + 1].second == r[i].second;
        }
      }
    }
  }

  /** The row of one second, if there is one. */
  ghost predicate HasSecond(t: seq<TimelinePoint>, second: int)
  {
    exists i :: 0 <= i < |t| && t[i].second == second
  }

  /** Adding a row changes the row of its own second and no other. */
  lemma {:induction false} AddPointRow(t: seq<TimelinePoint>, p: TimelinePoint, q: TimelinePoint)
    requires Ascending(t)
    ensures q in AddPoint(t, p) <==>
              || (q in t && q.second != p.second)
              || (q == MergePoint(NO_POINT, p) && !HasSecond(t, p.second))
              || (exists old' :: old' in t && old'.second == p.second && q == MergePoint(old', p))
  {
    if t != [] {
      var rest := t[1..];
      assert forall x :: x in t <==> x == t[0] || x in rest;
      if t[0].second < p.second {
        AddPointRow(rest, p, q);
        assert HasSecond(t, p.second) ==> HasSecond(rest, p.second) by {
          if HasSecond(t, p.second) {
            var i :| 0 <= i < |t| && t[i].second == p.second;
            assert rest[i - 1].second == p.second;
          }
        }
        assert HasSecond(rest, p.second) ==> HasSecond(t, p.second) by {
          if HasSecond(rest, p.second) {
            var i :| 0 <= i < |rest| && rest[i].second == p.second;
            assert t[i + 1].second == p.second;
          }
        }
      } else if t[0].second == p.second {
        assert HasSecond(t, p.second);
        assert forall x :: x in rest ==> x.second > p.second;
      } else {
        assert forall x :: x in t ==> x.second > p.second;
      }
    }
  }

  /** `f` reads a counter of a row: merging rows adds it up. Every field but Second and P95Millis is one. */
  ghost predicate AddsUp(f: TimelinePoint -> int)
  {
    f(NO_POINT) == 0 && forall a, b :: f(MergePoint(a, b)) == f(a) + f(b)
  }

  /** `f` for the rows of one second only. */
  function InSecond(f: TimelinePoint -> int, second: int): TimelinePoint -> int
  {
    (p: TimelinePoint) => if p.second == second then f(p) else 0
  }

  lemma {:induction false} AddPointSums(t: seq<TimelinePoint>, p: TimelinePoint, f: TimelinePoint -> int, second: int)
    requires AddsUp(f)
    ensures SumBy(f, AddPoint(t, p)) == SumBy(f, t) + f(p)
    ensures SumBy(InSecond(f, second), AddPoint(t, p)) == SumBy(InSecond(f, second), t) + InSecond(f, second)(p)
  {
    var r := AddPoint(t, p);
    assert f(MergePoint(NO_POINT, p)) == f(p);
    if t == [] || p.second < t[0].second {
      assert r[1..] == t;
    } else if p.second == t[0].second {
      assert r[1..] == t[1..];
      assert f(r[0]) == f(t[0]) + f(p);
    } else {
      assert r[1..] == AddPoint(t[1..], p);
      AddPointSums(t[1..], p, f, second);
    }
  }

  lemma {:induction false} RowHoldsItsSecond(t: seq<TimelinePoint>, i: nat, f: TimelinePoint -> int)
    requires Ascending(t) && i < |t|
    ensures SumBy(InSecond(f, t[i].second), t) == f(t[i])
  {
    if i > 0 {
      assert t[0].second < t[i].second;
      RowHoldsItsSecond(t[1..], i - 1, f);
    } else {
      NothingLater(t[1..], t[0].second, f);
    }
  }

  lemma {:induction false} NothingLater(t: seq<TimelinePoint>, second: int, f: TimelinePoint -> int)
    requires forall i :: 0 <= i < |t| ==> second < t[i].second
    ensures SumBy(InSecond(f, second), t) == 0
  {
    if t != [] { NothingLater(t[1..], second, f); }
  }

  lemma NothingMerged(points: seq<TimelinePoint>, f: TimelinePoint -> int, second: int)
    requires points == []
    ensures var t := MergedTimeline(points);
            && t == [] && Ascending(t) && !HasSecond(t, second) && !HasSecond(points, second)
            && SumBy(f, t) == SumBy(f, points) && SumBy(InSecond(f, second), t) == SumBy(InSecond(f, second), points)
  {
  }

  lemma LastMerged(points: seq<TimelinePoint>)
    requires points != []
    ensures var n := |points| - 1;
            && points == points[..n] + [points[n]]
            && MergedTimeline(points) == AddPoint(MergedTimeline(points[..n]), points[n])
  {
    hide AddPoint;
  }

  function Zero(): TimelinePoint -> int { (p: TimelinePoint) => 0 }

  lemma {:induction false} MergedTimelineSeconds(points: seq<TimelinePoint>, second: int)
    ensures Ascending(MergedTimeline(points))
    ensures HasSecond(MergedTimeline(points), second) <==> HasSecond(points, second)
  {
    if points == [] {
      NothingMerged(points, Zero(), second);
    } else {
      hide *;
      var n := |points| - 1;
      LastMerged(points);
      MergedTimelineSeconds(points[..n], second);
      AddPointAscends(MergedTimeline(points[..n]), points[n]);
      SecondsOfAddPoint(MergedTimeline(points[..n]), points[n], second);
      HasSecondSnoc(points[..n], points[n], second);
    }
  }

  lemma {:induction false} MergedTimelineTotals(points: seq<TimelinePoint>, f: TimelinePoint -> int, second: int)
    requires AddsUp(f)
    ensures var t := MergedTimeline(points);
            && SumBy(f, t) == SumBy(f, points)
            && SumBy(InSecond(f, second), t) == SumBy(InSecond(f, second), points)
  {
    hide *;
    if points == [] {
      NothingMerged(points, f, second);
    } else {
      var n := |points| - 1;
      LastMerged(points);
      MergedTimelineTotals(points[..n], f, second);
      SumBySnoc(f, points[..n], points[n]);
      SumBySnoc(InSecond(f, second), points[..n], points[n]);
      AddPointSums(MergedTimeline(points[..n]), points[n], f, second);
    }
  }

  lemma HasSecondSnoc(t: seq<TimelinePoint>, p: TimelinePoint, second: int)
    ensures HasSecond(t + [p], second) <==> HasSecond(t, second) || p.second == second
  {
    var r := t + [p];
    assert r[|t|] == p;
    assert forall i :: 0 <= i < |t| ==> t[i] == r[i];
  }

  lemma {:induction false} SecondsOfAddPoint(t: seq<TimelinePoint>, p: TimelinePoint, second: int)
    ensures HasSecond(AddPoint(t, p), second) <==> HasSecond(t, second) || p.second == second
  {
    var r := AddPoint(t, p);
    if t == [] || p.second < t[0].second {
      HasSecondCons(r[0], t, second);
    } else {
      assert t == [t[0]] + t[1..];
      HasSecondCons(t[0], t[1..], second);
      if p.second == t[0].second {
        HasSecondCons(r[0], t[1..], second);
      } else {
        SecondsOfAddPoint(t[1..], p, second);
        HasSecondCons(t[0], AddPoint(t[1..], p), second);
      }
    }
  }

  lemma HasSecondCons(p: TimelinePoint, t: seq<TimelinePoint>, second: int)
    ensures HasSecond([p] + t, second) <==> p.second == second || HasSecond(t, second)
  {
    var r := [p] + t;
    assert r[0] == p;
    if HasSecond(t, second) {
      var i :| 0 <= i < |t| && t[i].second == second;
      assert r[i + 1].second == second;
    }
    if HasSecond(r, second) && p.second != second {
      var i :| 0 <= i < |r| && r[i].second == second;
      assert t[i - 1].second == second;
    }
  }

  /** Every field of a row but its second and its P95 is a counter. */
  datatype Column = Requests | Successes | Failures | Issued | Completed | Cancelled | Active | Waiting | TargetLoad
  {
    function Read(): TimelinePoint -> int
    {
      match this
      case Requests => (p: TimelinePoint) => p.requests
      case Successes => (p: TimelinePoint) => p.successes
      case Failures => (p: TimelinePoint) => p.failures
      case Issued => (p: TimelinePoint) => p.issued
      case Completed => (p: TimelinePoint) => p.completed
      case Cancelled => (p: TimelinePoint) => p.cancelled
      case Active => (p: TimelinePoint) => p.active
      case Waiting => (p: TimelinePoint) => p.waiting
      case TargetLoad => (p: TimelinePoint) => p.targetLoad
    }
  }

  /** The merged timeline: seconds strictly increase, exactly the seconds some shard reported; each counter of a row
      is the sum of that counter over all rows of its second; and every column keeps its total. */
  lemma MergedTimelineSums(points: seq<TimelinePoint>, column: Column, second: int)
    ensures var t, f := MergedTimeline(points), column.Read();
            && Ascending(t)
            && (HasSecond(t, second) <==> HasSecond(points, second))
            && (forall i :: 0 <= i < |t| && t[i].second == second ==> f(t[i]) == SumBy(InSecond(f, second), points))
            && SumBy(f, t) == SumBy(f, points)
  {
    var t, f := MergedTimeline(points), column.Read();
    MergedTimelineSeconds(points, second);
    MergedTimelineTotals(points, f, second);
    forall i | 0 <= i < |t| && t[i].second == second ensures f(t[i]) == SumBy(InSecond(f, second), points) {
      RowHoldsItsSecond(t, i, f);
    }
  }

  /** The P95 of a merged row is the worst P95 any shard reported for that second. */
  ghost predicate WorstOf(q: TimelinePoint, points: seq<TimelinePoint>)
  {
    && (forall i :: 0 <= i < |points| && points[i].second == q.second ==> points[i].p95 <= q.p95)
    && (exists i :: 0 <= i < |points| && points[i].second == q.second && points[i].p95 == q.p95)
  }

  lemma WorstElsewhere(q: TimelinePoint, before: seq<TimelinePoint>, p: TimelinePoint)
    requires WorstOf(q, before) && p.second != q.second
    ensures WorstOf(q, before + [p])
  {
    var points := before + [p];
    var i :| 0 <= i < |before| && before[i].second == q.second && before[i].p95 == q.p95;
    assert points[i] == before[i];
  }

  lemma WorstFirst(before: seq<TimelinePoint>, p: TimelinePoint)
    requires !HasSecond(before, p.second)
    ensures WorstOf(MergePoint(NO_POINT, p), before + [p])
  {
    var points := before + [p];
    assert points[|before|] == p;
    assert forall i :: 0 <= i < |before| ==> before[i] == points[i];
  }

  lemma WorstMerged(earlier: TimelinePoint, before: seq<TimelinePoint>, p: TimelinePoint)
    requires WorstOf(earlier, before) && p.second == earlier.second
    ensures WorstOf(MergePoint(earlier, p), before + [p])
  {
    var points := before + [p];
    var i :| 0 <= i < |before| && before[i].second == earlier.second && before[i].p95 == earlier.p95;
    assert points[i] == before[i] && points[|before|] == p;
  }

  lemma {:induction false} MergedTimelineWorst(points: seq<TimelinePoint>, q: TimelinePoint)
    requires q in MergedTimeline(points)
    ensures WorstOf(q, points)
  {
    hide MergedTimeline, AddPoint, WorstOf, HasSecond, MergePoint, Ascending, FoldLeft;
    if points == [] {
      NothingMerged(points, Zero(), 0);
    } else {
      var before, p := points[..|points| - 1], points[|points| - 1];
      var t := MergedTimeline(before);
      LastMerged(points);
      MergedTimelineSeconds(before, p.second);
      AddPointRow(t, p, q);
      if q in t && q.second != p.second {
        MergedTimelineWorst(before, q);
        WorstElsewhere(q, before, p);
      } else if q == MergePoint(NO_POINT, p) && !HasSecond(t, p.second) {
        WorstFirst(before, p);
      } else {
        var earlier :| earlier in t && earlier.second == p.second && q == MergePoint(earlier, p);
        MergedTimelineWorst(before, earlier);
        WorstMerged(earlier, before, p);
      }
    }
  }

  // ----- the loop over a map, then sorting

  /** The map from seconds to rows that CompleteShard fills, against the sorted rows. */
  ghost predicate Represents(rows: map<int, TimelinePoint>, t: seq<TimelinePoint>)
  {
    && Ascending(t)
    && (forall p :: p in t ==> p.second in rows && rows[p.second] == p)
    && (forall second :: second in rows ==> rows[second].second == second && rows[second] in t)
  }

  lemma RowPresent(rows: map<int, TimelinePoint>, t: seq<TimelinePoint>, second: int)
    requires Represents(rows, t)
    ensures HasSecond(t, second) <==> second in rows
  {
    if HasSecond(t, second) {
      var i :| 0 <= i < |t| && t[i].second == second;
      assert t[i] in t;
    }
  }

  lemma RepresentsAdd(rows: map<int, TimelinePoint>, t: seq<TimelinePoint>, p: TimelinePoint)
    requires Represents(rows, t)
    ensures var current := if p.second in rows then rows[p.second] else NO_POINT;
            Represents(rows[p.second := MergePoint(current, p)], AddPoint(t, p))
  {
    hide AddPoint, HasSecond, Ascending;
    AddPointAscends(t, p);
    RowPresent(rows, t, p.second);
    var current := if p.second in rows then rows[p.second] else NO_POINT;
    var after, r := rows[p.second := MergePoint(current, p)], AddPoint(t, p);
    forall q | q in r ensures q.second in after && after[q.second] == q {
      AddPointRow(t, p, q);
    }
    forall second | second in after ensures after[second].second == second && after[second] in r {
      AddPointRow(t, p, after[second]);
    }
  }

  /** There is only one way to sort a map by its keys. */
  lemma {:induction false} SortedRowsUnique(rows: map<int, TimelinePoint>, a: seq<TimelinePoint>, b: seq<TimelinePoint>)
    requires Represents(rows, a) && Represents(rows, b)
    ensures a == b
    decreases |a|
  {
    if a != [] {
      SameFirst(rows, a, b);
      TailRepresents(rows, a);
      TailRepresents(rows, b);
      hide Represents;
      SortedRowsUnique(rows - {a[0].second}, a[1..], b[1..]);
      assert a == [a[0]] + a[1..] && b == [b[0]] + b[1..];
    }
  }

  lemma SameFirst(rows: map<int, TimelinePoint>, a: seq<TimelinePoint>, b: seq<TimelinePoint>)
    requires Represents(rows, a) && Represents(rows, b) && a != []
    ensures b != [] && a[0] == b[0]
  {
    assert a[0] in a;
    assert b != [] && b[0] in b;
    assert a[0] in b && b[0] in a;
  }

  lemma TailRepresents(rows: map<int, TimelinePoint>, t: seq<TimelinePoint>)
    requires Represents(rows, t) && t != []
    ensures Represents(rows - {t[0].second}, t[1..])
  {
    assert forall p :: p in t <==> p == t[0] || p in t[1..];
  }

  /** One shard's rows go into the map. */
  method AddRows(rows: map<int, TimelinePoint>, points: seq<TimelinePoint>, ghost t: seq<TimelinePoint>)
    returns (after: map<int, TimelinePoint>)
    requires Represents(rows, t)
    ensures Represents(after, FoldLeft(AddPoint, t, points))
  {
    hide Represents, AddPoint, MergePoint;
    after := rows;
    for i := 0 to |points|
      invariant Represents(after, FoldLeft(AddPoint, t, points[..i]))
    {
      var point := points[i];
      RepresentsAdd(after, FoldLeft(AddPoint, t, points[..i]), point);
      FoldSnoc(AddPoint, t, points[..i], point);
      assert points[..i] + [point] == points[..i + 1];
      var current := if point.second in after then after[point.second] else NO_POINT;
      after := after[point.second := MergePoint(current, point)];
    }
    assert points[..|points|] == points;
  }

  lemma RepresentsNext(rows: map<int, TimelinePoint>, t: seq<TimelinePoint>, rest: set<int>,
                       timeline: seq<TimelinePoint>, second: int)
    requires Represents(rows, t) && rest <= rows.Keys && second in rest && Represents(rows - rest, timeline)
    ensures Represents(rows - (rest - {second}), AddPoint(timeline, rows[second]))
  {
    RepresentsAdd(rows - rest, timeline, rows[second]);
    assert rows[second].second == second;
    assert MergePoint(NO_POINT, rows[second]) == rows[second];
    assert (rows - rest)[second := rows[second]] == rows - (rest - {second});
  }

  /** `sortedTimeline`: the rows in whatever order the map yields them, sorted by second. */
  method SortedTimeline(rows: map<int, TimelinePoint>,
                        ghost t: seq<TimelinePoint>)
    returns (timeline: seq<TimelinePoint>)
    requires Represents(rows, t)
    ensures timeline == t
  {
    timeline := [];
    var rest := rows.Keys;
    assert Represents(rows - rest, timeline);
    hide Represents, AddPoint;
    while exists second :: second in rest
      invariant rest <= rows.Keys
      invariant Represents(rows - rest, timeline)
      decreases |rest|
    {
      var second :| second in rest;
      RepresentsNext(rows, t, rest, timeline, second);
      timeline := AddPoint(timeline, rows[second]);
      rest := rest - {second};
    }
    assert rest == {};
    assert rows - rest == rows;
    SortedRowsUnique(rows, timeline, t);
  }
}
