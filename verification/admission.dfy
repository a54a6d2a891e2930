/** Open-loop load (internal/agent/runner.go, `runRPS` and `runTrace`): arrivals keep coming whatever the target does,
    and a buffered channel bounds how many journeys are under way. */
module Admission {
  import opened Core
  import opened TraceReplay

  /** The capacity of the channel. */
  function Limit(maxInFlight: nat): (limit: nat)
    ensures limit >= 1
  {
    if maxInFlight == 0 then MAX_VUS else maxInFlight
  }

  /** The generator, with the numbers of the arrivals it launched and dropped, and of the journeys that ended. */
  datatype Generator = Generator(arrivals: nat, launched: set<nat>, dropped: set<nat>, ended: set<nat>)
  const QUIET := Generator(0, {}, {}, {})

  function UnderWay(g: Generator): set<nat> { g.launched - g.ended }

  datatype Happening = Arrival | Ended(journey: nat)

  ghost predicate Next(g: Generator, h: Happening, g': Generator, limit: nat)
  {
    match h
    case Arrival =>
      g' == if |UnderWay(g)| < limit then g.(arrivals := g.arrivals + 1, launched := g.launched + {g.arrivals})
            else g.(arrivals := g.arrivals + 1, dropped := g.dropped + {g.arrivals})
    case Ended(journey) => journey in UnderWay(g) && g' == g.(ended := g.ended + {journey})
  }

  /** Every arrival was launched or dropped, and only what was launched ended. */
  ghost predicate Placed(g: Generator)
  {
    && (forall n :: n in g.launched || n in g.dropped <==> 0 <= n < g.arrivals)
    && g.launched !! g.dropped && g.ended <= g.launched
  }

  ghost predicate Sized(g: Generator, limit: nat)
  {
    && |g.launched| + |g.dropped| == g.arrivals
    && |UnderWay(g)| + |g.ended| == |g.launched|
    && |UnderWay(g)| <= limit
  }

  ghost predicate Ok(g: Generator, limit: nat) { Placed(g) && Sized(g, limit) }

  lemma OneMember(s: set<nat>, n: nat)
    requires n !in s
    ensures |s + {n}| == |s| + 1
  {
  }

  lemma StillUnderWay(launched: set<nat>, ended: set<nat>, n: nat)
    requires n !in ended
    ensures (launched + {n}) - ended == (launched - ended) + {n}
  {
  }

  lemma NewArrival(g: Generator)
    requires Placed(g)
    ensures var n := g.arrivals; n !in g.launched && n !in g.dropped && n !in g.ended && n !in UnderWay(g)
    ensures Placed(g.(arrivals := g.arrivals + 1, launched := g.launched + {g.arrivals}))
    ensures Placed(g.(arrivals := g.arrivals + 1, dropped := g.dropped + {g.arrivals}))
  {
  }

  lemma ArrivalKeepsOk(g: Generator, g': Generator, limit: nat)
    requires Ok(g, limit) && Next(g, Arrival, g', limit)
    ensures Ok(g', limit)
  {
    hide Placed, Sized;
    NewArrival(g);
    if |UnderWay(g)| < limit { LaunchSized(g, limit); } else { DropSized(g, limit); }
  }

  lemma LaunchSized(g: Generator, limit: nat)
    requires Sized(g, limit) && |UnderWay(g)| < limit
    requires g.arrivals !in g.launched && g.arrivals !in g.ended
    ensures Sized(g.(arrivals := g.arrivals + 1, launched := g.launched + {g.arrivals}), limit)
  {
    StillUnderWay(g.launched, g.ended, g.arrivals);
    OneMember(g.launched, g.arrivals);
    OneMember(UnderWay(g), g.arrivals);
  }

  lemma DropSized(g: Generator, limit: nat)
    requires Sized(g, limit) && g.arrivals !in g.dropped
    ensures Sized(g.(arrivals := g.arrivals + 1, dropped := g.dropped + {g.arrivals}), limit)
  {
    OneMember(g.dropped, g.arrivals);
  }

  lemma EndKeepsOk(g: Generator, journey: nat, g': Generator, limit: nat)
    requires Ok(g, limit) && Next(g, Ended(journey), g', limit)
    ensures Ok(g', limit)
  {
    assert UnderWay(g') == UnderWay(g) - {journey};
  }

  ghost predicate StepAt(trace: seq<Generator>, happenings: seq<Happening>, i: nat, limit: nat)
    requires |trace| == |happenings| + 1 && i < |happenings|
  {
    Next(trace[i], happenings[i], trace[i + 1], limit)
  }

  ghost predicate History(trace: seq<Generator>, happenings: seq<Happening>, limit: nat)
  {
    && |trace| == |happenings| + 1 && trace[0] == QUIET
    && forall i :: 0 <= i < |happenings| ==> StepAt(trace, happenings, i, limit)
  }

  /** At every moment of an open-loop run: never more journeys under way than the limit; every arrival was launched or
      dropped, not both; and what was launched has ended or is under way. */
  lemma {:induction false} AdmissionConserves(trace: seq<Generator>, happenings: seq<Happening>, i: nat,
                                              maxInFlight: nat)
    requires History(trace, happenings, Limit(maxInFlight)) && i < |trace|
    ensures Ok(trace[i], Limit(maxInFlight))
  {
    hide Next, Ok, Limit;
    if i == 0 {
      QuietIsOk(Limit(maxInFlight));
    } else {
      AdmissionConserves(trace, happenings, i - 1, maxInFlight);
      assert StepAt(trace, happenings, i - 1, Limit(maxInFlight));
      match happenings[i - 1]
      case Arrival => ArrivalKeepsOk(trace[i - 1], trace[i], Limit(maxInFlight));
      case Ended(journey) => EndKeepsOk(trace[i - 1], journey, trace[i], Limit(maxInFlight));
    }
  }

  lemma QuietIsOk(limit: nat)
    ensures Ok(QUIET, limit)
  {
    assert UnderWay(QUIET) == {};
  }

  /** An arrival is only dropped when the limit is reached, and never again turned into a launch. */
  lemma DroppedAtTheLimit(trace: seq<Generator>, happenings: seq<Happening>, i: nat, maxInFlight: nat)
    requires History(trace, happenings, Limit(maxInFlight)) && i < |happenings|
    requires trace[i + 1].dropped != trace[i].dropped
    ensures |UnderWay(trace[i])| == Limit(maxInFlight)
  {
    AdmissionConserves(trace, happenings, i, maxInFlight);
    assert StepAt(trace, happenings, i, Limit(maxInFlight));
  }

  /** The channel: a send that does not wait, and a receive. */
  class Slots {
    const limit: nat
    var inFlight: nat

    ghost predicate Valid()
      reads this
    {
      inFlight <= limit
    }

    constructor (maxInFlight: nat)
      ensures Valid() && limit == Limit(maxInFlight) && inFlight == 0
    {
      limit := if maxInFlight == 0 then MAX_VUS else maxInFlight;
      inFlight := 0;
    }

    method TryEnter() returns (entered: bool)
      requires Valid()
      modifies this
      ensures Valid() && entered == (old(inFlight) < limit)
      ensures inFlight == if entered then old(inFlight) + 1 else old(inFlight)
    {
      if inFlight >= limit { return false; }
      inFlight := inFlight + 1;
      return true;
    }

    method Leave()
      requires Valid() && inFlight > 0
      modifies this
      ensures Valid() && inFlight == old(inFlight) - 1
    {
      inFlight := inFlight - 1;
    }
  }

  ghost predicate Ascending(numbers: seq<nat>)
  {
    forall i, j :: 0 <= i < j < |numbers| ==> numbers[i] < numbers[j]
  }

  lemma AscendingSnoc(numbers: seq<nat>, next: nat)
    requires Ascending(numbers) && forall n :: n in numbers ==> n < next
    ensures Ascending(numbers + [next])
  {
    assert forall k :: 0 <= k < |numbers| ==> numbers[k] in numbers;
  }

  /** What became of a number of arrivals, and how many journeys are still under way. */
  datatype Admitted = Admitted(launched: seq<nat>, dropped: seq<nat>, inFlight: nat)

  /** How many are still under way when the next arrival comes, if up to `leaving` have left. */
  function Staying(inFlight: nat, leaving: nat): nat { if leaving < inFlight then inFlight - leaving else 0 }

  /** One more arrival: launched if fewer than `limit` are under way, dropped if not. */
  function AdmitNext(before: Admitted, limit: nat, n: nat, leaving: nat): Admitted
  {
    var staying := Staying(before.inFlight, leaving);
    if staying < limit then Admitted(before.launched + [n], before.dropped, staying + 1)
    else Admitted(before.launched, before.dropped + [n], staying)
  }

  /** Arrival after arrival. */
  function Admit(limit: nat, left: seq<nat>): Admitted
  {
    if left == [] then Admitted([], [], 0)
    else
      AdmitNext(Admit(limit, left[..|left| - 1]), limit, |left| - 1, left[|left| - 1])
  }

  ghost predicate Tidy(a: Admitted, limit: nat, count: nat)
  {
    && Ascending(a.launched) && Ascending(a.dropped)
    && |a.launched| + |a.dropped| == count && a.inFlight <= limit && a.inFlight <= |a.launched|
    && (forall n :: n in a.launched || n in a.dropped <==> 0 <= n < count)
  }

  lemma NextIsTidy(before: Admitted, limit: nat, n: nat, leaving: nat)
    requires Tidy(before, limit, n) && limit >= 1
    ensures Tidy(AdmitNext(before, limit, n, leaving), limit, n + 1)
  {
    AscendingSnoc(before.launched, n);
    AscendingSnoc(before.dropped, n);
    hide Ascending;
  }

  /** Every arrival is launched or dropped, each list in order, and the limit holds. */
  lemma {:induction false} AdmitConserves(limit: nat, left: seq<nat>)
    requires limit >= 1
    ensures Tidy(Admit(limit, left), limit, |left|)
  {
    if left != [] {
      hide Tidy, AdmitNext;
      AdmitConserves(limit, left[..|left| - 1]);
      NextIsTidy(Admit(limit, left[..|left| - 1]), limit, |left| - 1, left[|left| - 1]);
    }
  }

  /** An arrival is dropped exactly when, with all that have left by then, the limit is still reached. */
  lemma {:induction false} DroppedExactlyAtLimit(limit: nat, left: seq<nat>, n: nat)
    requires limit >= 1 && n < |left|
    ensures n in Admit(limit, left).dropped <==> Staying(Admit(limit, left[..n]).inFlight, left[n]) == limit
  {
    var last := |left| - 1;
    AdmitConserves(limit, left[..last]);
    if n < last {
      hide Staying;
      assert left[..last][..n] == left[..n];
      DroppedExactlyAtLimit(limit, left[..last], n);
    }
  }

  /** `runTrace`: the events in order, each launched in a free slot or dropped. The environment decides
      how many journeys have left before each arrival (`left`), and at which event the issue window
      turns out to be closed (`stopAt`). */
  method RunTrace(r: Replay, slots: Slots, left: seq<nat>, stopAt: nat) returns (launched: seq<nat>, dropped: seq<nat>)
    requires slots.Valid() && slots.inFlight == 0 && |left| == |r.events|
    modifies slots
    ensures slots.Valid()
    ensures Admitted(launched, dropped, slots.inFlight) == Admit(slots.limit, left[..Min(stopAt, |left|)])
  {
    launched, dropped := [], [];
    for i := 0 to |r.events|
      invariant slots.Valid() && i <= stopAt
      invariant Admitted(launched, dropped, slots.inFlight) == Admit(slots.limit, left[..i])
    {
      if i == stopAt { break; }
      assert left[..i + 1][..i] == left[..i];
      ghost var before := slots.inFlight;
      for gone := 0 to left[i]
        invariant slots.inFlight == Staying(before, gone)
      {
        if slots.inFlight > 0 { slots.Leave(); }
      }
      var entered := slots.TryEnter();
      if entered {
        launched := launched + [i];
      } else {
        dropped := dropped + [i];
      }
    }
  }

  /** All that a validated trace launches or drops falls due within the run. */
  lemma ReplayedInTime(r: Replay, limit: nat, left: seq<nat>, stopAt: nat, n: nat)
    requires limit >= 1 && r.events != [] && Replayable(r) && |left| == |r.events|
    requires var a := Admit(limit, left[..Min(stopAt, |left|)]); n in a.launched || n in a.dropped
    ensures n < |r.events| && 0 <= DueNanos(r, n) < r.durationSeconds * 1000000000
  {
    AdmitConserves(limit, left[..Min(stopAt, |left|)]);
    ScheduleFits(r, n, n);
  }
}
