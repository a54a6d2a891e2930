/** The agent's bounded sample set (internal/agent/runner.go, `sampleSet`): a decimating buffer that keeps an evenly
    spread part of everything it is given. */
module SampleSets {
  const MAX_SAMPLES_PER_METRIC: nat := 100000

  datatype SampleSet = SampleSet(values: seq<nat>, stride: nat, seen: nat, decimated: bool)
  const EMPTY := SampleSet([], 0, 0, false)

  /** Every other value, starting from the second. */
  function OddIndexed(s: seq<nat>): (r: seq<nat>)
  {
    seq(|s| / 2, i requires 0 <= i < |s| / 2 => s[2 * i + 1])
  }

  /** One more value arrives at a set that holds fewer than `cap` values. */
  function Add(s: SampleSet, value: nat, cap: nat): SampleSet
  {
    var stride := if s.stride == 0 then 1 else s.stride;
    var seen := s.seen + 1;
    if seen % stride != 0 then s.(stride := stride, seen := seen)
    else
      var values := s.values + [value];
      if |values| >= cap then SampleSet(OddIndexed(values), 2 * stride, seen, true)
      else SampleSet(values, stride, seen, s.decimated)
  }

  function AddAll(s: SampleSet, values: seq<nat>, cap: nat): SampleSet
  {
    if values == [] then s else Add(AddAll(s, values[..|values| - 1], cap), values[|values| - 1], cap)
  }

  lemma {:induction false} AddAllConcat(s: SampleSet, a: seq<nat>, b: seq<nat>, cap: nat)
    ensures AddAll(s, a + b, cap) == AddAll(AddAll(s, a, cap), b, cap)
  {
    if b == [] {
      assert a + b == a;
    } else {
      AddAllConcat(s, a, b[..|b| - 1], cap);
      assert (a + b)[..|a + b| - 1] == a + b[..|b| - 1];
    }
  }

  // ----- the closed form

  predicate IsPowerOfTwo(n: nat) { n == 1 || (n > 1 && n % 2 == 0 && IsPowerOfTwo(n / 2)) }

  lemma Scale(x: int, y: int, d: nat)
    requires x <= y
    ensures x * d <= y * d
  {
  }

  lemma QuotientBounds(n: nat, d: nat)
    requires d >= 1
    ensures n / d * d <= n < (n / d + 1) * d
  {
  }

  /** Division by its defining bounds. */
  lemma QuotientIs(n: nat, d: nat, q: nat)
    requires d >= 1 && q * d <= n < (q + 1) * d
    ensures n / d == q
  {
    QuotientBounds(n, d);
    if n / d < q {
      Scale(n / d + 1, q, d);
      assert false;
    }
    if q < n / d {
      Scale(q + 1, n / d, d);
      assert false;
    }
  }

  lemma QuotientStep(n: nat, d: nat)
    requires d >= 1
    ensures (n + 1) / d == if (n + 1) % d == 0 then n / d + 1 else n / d
  {
    var q, r := (n + 1) / d, (n + 1) % d;
    assert n + 1 == q * d + r;
    if r == 0 {
      assert q * d == (q - 1) * d + d;
      QuotientIs(n, d, q - 1);
    } else {
      QuotientIs(n, d, q);
    }
  }

  lemma QuotientHalves(n: nat, d: nat)
    requires d >= 1
    ensures n / (2 * d) == n / d / 2
  {
    var q := n / d;
    var h := q / 2;
    QuotientBounds(n, d);
    Scale(2 * h, q, d);
    Scale(q + 1, 2 * h + 2, d);
    assert h * (2 * d) == (2 * h) * d;
    assert (h + 1) * (2 * d) == (2 * h + 2) * d;
    QuotientIs(n, 2 * d, h);
  }

  lemma QuotientZero(n: nat, d: nat)
    requires n < d
    ensures n / d == 0
  {
    QuotientIs(n, d, 0);
  }

  /** The least doubling of `stride` at which `seen` values leave fewer than `cap` of them. */
  function StrideFrom(seen: nat, cap: nat, stride: nat): (r: nat)
    requires cap >= 1 && stride >= 1
    ensures r >= stride && seen / r < cap
    ensures IsPowerOfTwo(stride) ==> IsPowerOfTwo(r)
    decreases seen + 1 - stride
  {
    if seen / stride < cap then stride else
      assert stride <= seen by { if seen < stride { QuotientZero(seen, stride); } }
      StrideFrom(seen, cap, 2 * stride)
  }

  function StrideFor(seen: nat, cap: nat): (r: nat)
    requires cap >= 1
    ensures r >= 1 && IsPowerOfTwo(r) && seen / r < cap
  {
    StrideFrom(seen, cap, 1)
  }

  lemma InRange(i: nat, stride: nat, n: nat)
    requires stride >= 1 && i < n / stride
    ensures (i + 1) * stride - 1 < n
  {
    QuotientBounds(n, stride);
    Scale(i + 1, n / stride, stride);
  }

  /** The value number stride, 2*stride, 3*stride, ... of everything ever added. */
  function EveryNth(history: seq<nat>, stride: nat): (r: seq<nat>)
    requires stride >= 1
  {
    seq(|history| / stride, i requires 0 <= i < |history| / stride =>
      InRange(i, stride, |history|); history[(i + 1) * stride - 1])
  }

  /** What a set of capacity `cap` holds after `history`, without replaying it. */
  function Thinned(history: seq<nat>, cap: nat): SampleSet
    requires cap >= 1
  {
    if history == [] then EMPTY else
      var stride := StrideFor(|history|, cap);
      SampleSet(EveryNth(history, stride), stride, |history|, stride > 1)
  }

  /** One more value moves the stride up exactly when it fills the buffer. */
  lemma {:induction false} StrideStep(n: nat, cap: nat, stride: nat)
    requires cap >= 1 && stride >= 1
    requires StrideFrom(n, cap, stride) == stride ==> n / stride < cap
    ensures var s := StrideFrom(n, cap, stride);
            StrideFrom(n + 1, cap, stride) == if (n + 1) / s < cap then s else 2 * s
    decreases n + 1 - stride
  {
    if n / stride < cap {
      QuotientStep(n, stride);
      QuotientHalves(n + 1, stride);
    } else {
      QuotientStep(n, stride);
      if n < stride { QuotientZero(n, stride); }
      StrideStep(n, cap, 2 * stride);
    }
  }

  /** A stride above 1 was needed: half of it would have left too many values. */
  lemma {:induction false} StrideIsLeast(n: nat, cap: nat, stride: nat)
    requires cap >= 1 && stride >= 1
    ensures var s := StrideFrom(n, cap, stride); s > stride ==> s % 2 == 0 && n / (s / 2) >= cap
    decreases n + 1 - stride
  {
    if n / stride >= cap {
      if n < stride { QuotientZero(n, stride); }
      StrideIsLeast(n, cap, 2 * stride);
    }
  }

  lemma EveryNthSnoc(history: seq<nat>, value: nat, stride: nat)
    requires stride >= 1
    ensures EveryNth(history + [value], stride)
         == EveryNth(history, stride) + if (|history| + 1) % stride == 0 then [value] else []
  {
    var all := history + [value];
    QuotientStep(|history|, stride);
    var old', new' := EveryNth(history, stride), EveryNth(all, stride);
    forall i | 0 <= i < |old'| ensures new'[i] == old'[i] {
      InRange(i, stride, |history|);
      InRange(i, stride, |all|);
    }
    if |all| % stride == 0 {
      var q := |all| / stride;
      assert |all| == q * stride;
      InRange(q - 1, stride, |all|);
      assert new'[q - 1] == all[q * stride - 1] == value;
      assert new' == old' + [value];
    } else {
      assert new' == old';
    }
  }

  lemma EveryNthHalves(history: seq<nat>, stride: nat)
    requires stride >= 1
    ensures OddIndexed(EveryNth(history, stride)) == EveryNth(history, 2 * stride)
  {
    QuotientHalves(|history|, stride);
    var fine, coarse := EveryNth(history, stride), EveryNth(history, 2 * stride);
    forall i | 0 <= i < |coarse| ensures coarse[i] == fine[2 * i + 1] {
      InRange(i, 2 * stride, |history|);
      InRange(2 * i + 1, stride, |history|);
      assert (i + 1) * (2 * stride) == (2 * i + 2) * stride;
    }
  }

  lemma ThinnedStep(history: seq<nat>, value: nat, cap: nat)
    requires cap >= 1
    ensures Thinned(history + [value], cap) == Add(Thinned(history, cap), value, cap)
  {
    var n := |history|;
    var stride := StrideFor(n, cap);
    if n == 0 {
      QuotientZero(0, 1);
      assert stride == 1;
      assert EveryNth(history, 1) == [];
    }
    StrideStep(n, cap, 1);
    QuotientStep(n, stride);
    EveryNthSnoc(history, value, stride);
    EveryNthHalves(history + [value], stride);
  }

  /** The closed form: whatever was added, in however many steps, the set holds exactly every stride-th value. */
  lemma {:induction false} AddAllIsThinned(history: seq<nat>, cap: nat)
    requires cap >= 1
    ensures AddAll(EMPTY, history, cap) == Thinned(history, cap)
  {
    if history != [] {
      var n := |history| - 1;
      AddAllIsThinned(history[..n], cap);
      ThinnedStep(history[..n], history[n], cap);
      assert history == history[..n] + [history[n]];
    }
  }

  /** How much is kept. Once values have been dropped, at least half the buffer stays in use. */
  lemma ThinnedBounds(history: seq<nat>, cap: nat)
    requires cap >= 1 && history != []
    ensures var s := Thinned(history, cap);
            && s.seen == |history| && s.stride >= 1 && IsPowerOfTwo(s.stride)
            && |s.values| == s.seen / s.stride && |s.values| < cap
            && (s.decimated <==> |history| >= cap)
            && (s.decimated ==> |s.values| >= cap / 2)
  {
    var n := |history|;
    var stride := StrideFor(n, cap);
    QuotientIs(n, 1, n);
    StrideIsLeast(n, cap, 1);
    if stride > 1 {
      QuotientHalves(n, stride / 2);
    }
  }

  /** Which values are kept: number stride, 2*stride, ... of all of them, and all of them until some are dropped. */
  lemma ThinnedValues(history: seq<nat>, cap: nat, i: nat)
    requires cap >= 1 && i < |Thinned(history, cap).values|
    ensures var s := Thinned(history, cap);
            && (i + 1) * s.stride - 1 < |history| && s.values[i] == history[(i + 1) * s.stride - 1]
  {
    hide StrideFor;
    InRange(i, StrideFor(|history|, cap), |history|);
  }

  lemma UndecimatedKeepsAll(history: seq<nat>, cap: nat)
    requires cap >= 1 && |history| < cap
    ensures Thinned(history, cap).values == history && !Thinned(history, cap).decimated
  {
    QuotientIs(|history|, 1, |history|);
  }

  lemma EveryOther(values: seq<nat>, kept: seq<nat>)
    requires |kept| == |values| / 2 && forall j :: 0 <= j < |kept| ==> kept[j] == values[2 * j + 1]
    ensures kept == OddIndexed(values)
  {
  }

  /** The same set as the agent keeps it: one buffer, compacted in place. */
  class SampleBuffer {
    const cap: nat
    var buffer: array<nat>
    var used: nat
    var stride: nat
    var seen: nat
    var decimated: bool
    ghost var history: seq<nat>

    ghost predicate Valid()
      reads this, buffer
    {
      cap >= 1 && buffer.Length == cap && used < cap && Value() == Thinned(history, cap)
    }

    ghost function Value(): SampleSet
      requires used <= buffer.Length
      reads this, buffer
    {
      SampleSet(buffer[..used], stride, seen, decimated)
    }

    constructor (capacity: nat)
      requires capacity >= 1
      ensures Valid() && cap == capacity && history == [] && fresh(buffer)
    {
      cap := capacity;
      buffer := new nat[capacity];
      used, stride, seen, decimated := 0, 0, 0, false;
      history := [];
      new;
      assert buffer[..0] == [];
    }

    method Append(value: nat)
      requires Valid()
      modifies this`used, this`stride, this`seen, this`decimated, this`history, buffer
      ensures Valid() && history == old(history) + [value]
      ensures Value() == Add(old(Value()), value, cap)
    {
      hide Thinned, OddIndexed;
      ghost var before := Value();
      ThinnedStep(history, value, cap);
      history := history + [value];
      if stride == 0 {
        stride := 1;
      }
      seen := seen + 1;
      if seen % stride != 0 {
        return;
      }
      buffer[used] := value;
      used := used + 1;
      ghost var values := buffer[..used];
      assert values == before.values + [value];
      if used >= cap {
        Compact();
      }
    }

    /** Keeps every other value, writing over the front of the buffer while reading further back. */
    method Compact()
      requires used <= buffer.Length
      modifies this`used, this`stride, this`decimated, buffer
      ensures used <= buffer.Length && used == old(used) / 2
      ensures Value() == SampleSet(OddIndexed(old(Value()).values), 2 * old(stride), seen, true)
    {
      hide OddIndexed;
      ghost var values := buffer[..used];
      var kept, i := 0, 1;
      while i < used
        modifies buffer
        invariant i == 2 * kept + 1 && 2 * kept <= used
        invariant forall j :: 0 <= j < kept ==> buffer[j] == values[2 * j + 1]
        invariant forall j :: i <= j < used ==> buffer[j] == values[j]
      {
        buffer[kept] := buffer[i];
        kept := kept + 1;
        i := i + 2;
      }
      used := kept;
      EveryOther(values, buffer[..used]);
      stride := stride * 2;
      decimated := true;
    }

    method AppendAll(values: seq<nat>)
      requires Valid()
      modifies this`used, this`stride, this`seen, this`decimated, this`history, buffer
      ensures Valid() && history == old(history) + values
    {
      hide Thinned, Add;
      for i := 0 to |values|
        invariant Valid() && history == old(history) + values[..i]
      {
        Append(values[i]);
        assert values[..i] + [values[i]] == values[..i + 1];
      }
      assert values[..|values|] == values;
    }
  }
}
