/** Which task, journey and cache variation a request gets (internal/agent/runner.go, `nextWorkload` and `nextJourney`).
    The choice is a function of a sequence number, so the mix is exact and repeatable. */
module Workload {
  import opened Core
  import opened Names

  // ----- counting over windows of consecutive numbers

  /** How many of the `n` numbers from `start` on have the property. */
  function CountIn(p: int -> bool, start: nat, n: nat): nat
  {
    if n == 0 then 0 else CountIn(p, start, n - 1) + if p(start + n - 1) then 1 else 0
  }

  ghost predicate Periodic(p: int -> bool, n: nat) { forall k :: k >= 0 ==> p(k + n) == p(k) }

  lemma {:induction false} CountFirst(p: int -> bool, start: nat, n: nat)
    requires n > 0
    ensures CountIn(p, start, n) == CountIn(p, start + 1, n - 1) + if p(start) then 1 else 0
  {
    if n > 1 { CountFirst(p, start, n - 1); }
  }

  /** Where a window of one period starts makes no difference. */
  lemma {:induction false} WindowShift(p: int -> bool, start: nat, n: nat)
    requires n > 0 && Periodic(p, n)
    ensures CountIn(p, start, n) == CountIn(p, 0, n)
    decreases start
  {
    if start > 0 {
      WindowShift(p, start - 1, n);
      CountFirst(p, start - 1, n);
      assert p(start - 1 + n) == p(start - 1);
    }
  }

  lemma {:induction false} CountSplit(p: int -> bool, start: nat, m: nat, n: nat)
    ensures CountIn(p, start, m + n) == CountIn(p, start, m) + CountIn(p, start + m, n)
  {
    if n > 0 { CountSplit(p, start, m, n - 1); }
  }

  lemma OneRoundMore(rounds: int, count: int)
    ensures rounds * count == (rounds - 1) * count + count
  {
  }

  /** Over `rounds` periods in a row it is the same share of each. */
  lemma {:induction false} RoundsCount(p: int -> bool, start: nat, n: nat, rounds: nat)
    requires n > 0 && Periodic(p, n)
    ensures CountIn(p, start, rounds * n) == rounds * CountIn(p, 0, n)
  {
    if rounds > 0 {
      hide CountIn, Periodic;
      RoundsCount(p, start, n, rounds - 1);
      OneRoundMore(rounds, n);
      OneRoundMore(rounds, CountIn(p, 0, n));
      CountSplit(p, start, (rounds - 1) * n, n);
      WindowShift(p, start + (rounds - 1) * n, n);
    }
  }

  // ----- weighted choice

  function WeightSum(weights: seq<int>): int { if weights == [] then 0 else weights[0] + WeightSum(weights[1..]) }

  /** The entry whose share of [0, WeightSum) holds `pick`: the first that takes the running difference below zero. */
  function Pick(weights: seq<int>, pick: int): (i: Option<nat>)
    ensures i.Some? ==> i.value < |weights|
  {
    if weights == [] then None
    else if pick - weights[0] < 0 then Some(0)
    else match Pick(weights[1..], pick - weights[0])
         case Some(i) => Some(i + 1)
         case None => None
  }

  /** What the sequence number chooses; nothing when the weights do not add up to more than zero. */
  function Choose(weights: seq<int>, sequence: nat): (i: Option<nat>)
    ensures i.Some? ==> i.value < |weights|
  {
    if WeightSum(weights) > 0 then Pick(weights, sequence % WeightSum(weights)) else None
  }

  ghost predicate NonNegative(weights: seq<int>) { forall i :: 0 <= i < |weights| ==> weights[i] >= 0 }

  lemma {:induction false} SumNonNegative(weights: seq<int>)
    requires NonNegative(weights)
    ensures WeightSum(weights) >= 0
  {
    if weights != [] { SumNonNegative(weights[1..]); }
  }

  lemma {:induction false} PickIs(weights: seq<int>, pick: int, i: nat)
    requires NonNegative(weights) && i < |weights| && pick >= 0
    ensures Pick(weights, pick) == Some(i) <==> WeightSum(weights[..i]) <= pick < WeightSum(weights[..i]) + weights[i]
    ensures 0 <= WeightSum(weights[..i]) && WeightSum(weights[..i]) + weights[i] <= WeightSum(weights)
  {
    SumNonNegative(weights[1..]);
    if i == 0 {
      assert weights[..0] == [];
    } else {
      assert weights[..i][1..] == weights[1..][..i - 1];
      SumNonNegative(weights[1..][..i - 1]);
      PickIs(weights[1..], if pick >= weights[0] then pick - weights[0] else 0, i - 1);
    }
  }

  /** Whether number `k` chooses entry `i`. */
  function Chooses(weights: seq<int>, i: nat): int -> bool { (k: int) => k >= 0 && Choose(weights, k) == Some(i) }

  lemma {:induction false} CountInterval(p: int -> bool, low: nat, high: nat, n: nat)
    requires low <= high && forall k :: 0 <= k < n ==> (p(k) <==> low <= k < high)
    ensures CountIn(p, 0, n) == Max(0, Min(n, high) - low)
  {
    if n > 0 { CountInterval(p, low, high, n - 1); }
  }

  lemma AtLeast(a: int, n: nat)
    requires a >= 1
    ensures a * n >= n
  {
    assert a * n == (a - 1) * n + n;
  }

  /** Division by its defining equation. */
  lemma RemainderIs(x: int, n: nat, a: int, r: int)
    requires 0 <= r < n && x == a * n + r
    ensures x % n == r
  {
    var b, s := x / n, x % n;
    assert x == b * n + s;
    assert (a - b) * n == s - r && (b - a) * n == r - s;
    if a > b { AtLeast(a - b, n); }
    if b > a { AtLeast(b - a, n); }
  }

  lemma SamePlace(k: nat, n: nat)
    requires n > 0
    ensures (k + n) % n == k % n && (k < n ==> k % n == k)
  {
    var q, r := k / n, k % n;
    assert k == q * n + r;
    assert (q + 1) * n == q * n + n;
    RemainderIs(k + n, n, q + 1, r);
    if k < n { RemainderIs(k, n, 0, k); }
  }

  lemma ChoicesRepeat(weights: seq<int>, i: nat)
    requires WeightSum(weights) > 0
    ensures Periodic(Chooses(weights, i), WeightSum(weights))
  {
    forall k: int | k >= 0 ensures Chooses(weights, i)(k + WeightSum(weights)) == Chooses(weights, i)(k) {
      SamePlace(k, WeightSum(weights));
    }
  }

  /** The mix is exact: among any consecutive sequence numbers as many as the weights add up to, each entry is chosen
      exactly as often as its weight says, and so it stays round after round. */
  lemma ExactMix(weights: seq<int>, i: nat, start: nat, rounds: nat)
    requires NonNegative(weights) && WeightSum(weights) > 0 && i < |weights|
    ensures CountIn(Chooses(weights, i), start, WeightSum(weights)) == weights[i]
    ensures CountIn(Chooses(weights, i), start, rounds * WeightSum(weights)) == rounds * weights[i]
  {
    var n, p := WeightSum(weights), Chooses(weights, i);
    PickIs(weights, 0, i);
    var low := WeightSum(weights[..i]);
    forall k | 0 <= k < n ensures p(k) <==> low <= k < low + weights[i] {
      SamePlace(k, n);
      PickIs(weights, k, i);
    }
    CountInterval(p, low, low + weights[i], n);
    ChoicesRepeat(weights, i);
    WindowShift(p, start, n);
    RoundsCount(p, start, n, rounds);
  }

  /** Every number chooses something. */
  lemma {:induction false} SomethingChosen(weights: seq<int>, pick: int)
    requires 0 <= pick < WeightSum(weights)
    ensures Pick(weights, pick).Some?
  {
    if weights != [] && pick - weights[0] >= 0 { SomethingChosen(weights[1..], pick - weights[0]); }
  }

  // ----- cache variation

  const DEFAULT_VARIATION: int := 30

  /** The share of varied requests under the mixed policy. */
  function VariedPercent(config: RunConfig): int
  {
    if config.variationPercent == 0 then DEFAULT_VARIATION else config.variationPercent
  }

  predicate Scattered(k: int, percent: int) { k * 37 % 100 < percent }

  predicate Varied(config: RunConfig, sequence: nat)
  {
    match config.cachePolicy
    case Bypass => true
    case Mixed => Scattered(sequence, VariedPercent(config))
    case Reuse => false
    case Unset => false
  }

  function ScatteredBelow(percent: int): int -> bool { (k: int) => Scattered(k, percent) }
  function ScatteredTo(v: int): int -> bool { (k: int) => k * 37 % 100 == v }

  lemma Remainder(n: int, m: int)
    ensures (n + 100 * m) % 100 == n % 100
  {
  }

  lemma Multiplied(k: nat, f: nat, g: nat, q: nat, r: nat)
    requires k * f == 100 * q + r
    ensures r * g == k * (f * g) - 100 * (q * g)
  {
    assert k * (f * g) == (k * f) * g == (100 * q + r) * g == 100 * (q * g) + r * g;
  }

  lemma Unscale(k: nat, f: nat, g: nat, m: nat)
    requires k < 100 && f * g == 100 * m + 1
    ensures (k * f % 100) * g % 100 == k
  {
    var q, r := k * f / 100, k * f % 100;
    Multiplied(k, f, g, q, r);
    assert k * (f * g) == 100 * (k * m) + k by { Multiplied(k, 1, 100 * m + 1, 0, k); }
    Remainder(k, k * m - q * g);
  }

  /** 37 and 73 are inverse modulo 100, so 37 k takes every remainder once. */
  lemma Unscatter(k: nat, v: nat)
    requires k < 100 && v < 100
    ensures k * 37 % 100 == v <==> k == v * 73 % 100
  {
    Unscale(k, 37, 73, 27);
    Unscale(v, 73, 37, 27);
  }

  lemma {:induction false} CountOne(p: int -> bool, at: nat, n: nat)
    requires forall k :: 0 <= k < n ==> (p(k) <==> k == at)
    ensures CountIn(p, 0, n) == if at < n then 1 else 0
  {
    if n > 0 { CountOne(p, at, n - 1); }
  }

  lemma {:induction false} NoneCounted(p: int -> bool, n: nat)
    requires forall k :: 0 <= k < n ==> !p(k)
    ensures CountIn(p, 0, n) == 0
  {
    if n > 0 { NoneCounted(p, n - 1); }
  }

  lemma {:induction false} CountEither(p: int -> bool, q: int -> bool, r: int -> bool, n: nat)
    requires forall k :: 0 <= k < n ==> (r(k) <==> p(k) || q(k)) && !(p(k) && q(k))
    ensures CountIn(r, 0, n) == CountIn(p, 0, n) + CountIn(q, 0, n)
  {
    if n > 0 { CountEither(p, q, r, n - 1); }
  }

  lemma {:induction false} ScatteredCount(percent: nat)
    requires percent <= 100
    ensures CountIn(ScatteredBelow(percent), 0, 100) == percent
  {
    if percent == 0 {
      NoneCounted(ScatteredBelow(0), 100);
    } else {
      var v := percent - 1;
      ScatteredCount(v);
      forall k | 0 <= k < 100 ensures ScatteredTo(v)(k) <==> k == v * 73 % 100 { Unscatter(k, v); }
      CountOne(ScatteredTo(v), v * 73 % 100, 100);
      CountEither(ScatteredBelow(v), ScatteredTo(v), ScatteredBelow(percent), 100);
    }
  }

  function VariedIn(config: RunConfig): int -> bool { (k: int) => k >= 0 && Varied(config, k) }

  lemma VariationRepeats(config: RunConfig)
    ensures Periodic(VariedIn(config), 100)
  {
    forall k: int | k >= 0 ensures VariedIn(config)(k + 100) == VariedIn(config)(k) {
      assert (k + 100) * 37 == k * 37 + 100 * 37;
      Remainder(k * 37, 37);
    }
  }

  lemma {:induction false} SameCount(p: int -> bool, q: int -> bool, n: nat)
    requires forall k :: 0 <= k < n ==> p(k) == q(k)
    ensures CountIn(p, 0, n) == CountIn(q, 0, n)
  {
    if n > 0 { SameCount(p, q, n - 1); }
  }

  /** Among any 100 consecutive requests of a mixed run exactly the configured percentage is varied, 30 when none is
      set; with bypass all of them are, and otherwise none. */
  lemma ExactVariation(config: RunConfig, start: nat)
    requires 0 <= config.variationPercent <= 100
    ensures CountIn(VariedIn(config), start, 100)
         == match config.cachePolicy
            case Bypass => 100
            case Mixed => VariedPercent(config)
            case _ => 0
  {
    hide CountIn, Periodic;
    var p := VariedIn(config);
    VariationRepeats(config);
    WindowShift(p, start, 100);
    match config.cachePolicy
    case Bypass => CountInterval(p, 0, 100, 100);
    case Mixed => MixedVariation(config);
    case _ => NoneCounted(p, 100);
  }

  lemma MixedVariation(config: RunConfig)
    requires 0 <= config.variationPercent <= 100 && config.cachePolicy.Mixed?
    ensures CountIn(VariedIn(config), 0, 100) == VariedPercent(config)
  {
    hide CountIn;
    ScatteredCount(VariedPercent(config));
    SameCount(VariedIn(config), ScatteredBelow(VariedPercent(config)), 100);
  }

  // ----- the agent's counters

  function TaskWeights(tasks: seq<ScenarioTask>): seq<int>
  {
    seq(|tasks|, i requires 0 <= i < |tasks| => tasks[i].weight)
  }

  function JourneyWeights(journeys: seq<UserJourney>): seq<int>
  {
    seq(|journeys|, i requires 0 <= i < |journeys| => journeys[i].weight)
  }

  datatype Work = Work(name: string, prompt: string, thinkMillis: int, maxTokens: int)

  /** The task the request with this number gets. */
  function TaskFor(config: RunConfig, sequence: nat): Work
  {
    match Choose(TaskWeights(config.scenario), sequence)
    case Some(i) =>
      var task := config.scenario[i];
      Work(task.name, task.prompt, task.thinkMillis, if task.maxTokens > 0 then task.maxTokens else config.maxTokens)
    case None => Work("", config.prompt, 0, config.maxTokens)
  }

  // ----- length and padding

  /** How much output lengths and prompt padding vary. */
  datatype Shaping = Shaping(outputStdev: int, padTokens: int, padStdev: int)

  const CHARS_PER_TOKEN: nat := 4
  const SENTENCE := "context filler sentence for input length shaping. "

  /** A symmetric offset that depends on nothing but the sequence number; `hash` is FNV-1a in the code,
      any function here. */
  function Jitter(hash: string -> nat, seed: string, sequence: nat, stdev: int): (offset: int)
    ensures if stdev <= 0 then offset == 0 else -stdev <= offset <= stdev
  {
    if stdev <= 0 then 0 else hash(seed + "#" + Decimal(sequence)) % (2 * stdev + 1) - stdev
  }

  function Repeat(text: string, n: nat): (r: string)
    ensures |r| == n * |text|
  {
    if n == 0 then "" else
      assert n * |text| == (n - 1) * |text| + |text|;
      Repeat(text, n - 1) + text
  }

  function FillerHead(sequence: nat): string { "[pad-" + Decimal(sequence) + "] " }

  lemma LongEnough(text: string, n: nat)
    requires |text| >= 1
    ensures n * |text| >= n
  {
  }

  /** The first `chars` characters of `head` and then `text` over and over. */
  function FilledUp(head: string, text: string, chars: nat): (r: string)
    requires |text| >= 1
    ensures |r| == chars
  {
    LongEnough(text, chars);
    (head + Repeat(text, chars))[..chars]
  }

  /** `chars` characters of filler: the sequence number, then the sentence over and over. */
  function Filler(sequence: nat, chars: nat): (r: string)
    ensures |r| == chars
  {
    FilledUp(FillerHead(sequence), SENTENCE, chars)
  }

  lemma {:induction false} RepeatPrefix(text: string, m: nat, n: nat)
    requires m <= n
    ensures Repeat(text, m) <= Repeat(text, n)
  {
    if m < n { RepeatPrefix(text, m, n - 1); }
  }

  lemma PrefixTake(a: string, b: string, n: nat)
    requires a <= b && n <= |a|
    ensures a[..n] == b[..n]
  {
  }

  method FillUp(head: string, text: string, chars: nat) returns (filler: string)
    requires |text| >= 1
    ensures filler == FilledUp(head, text, chars)
  {
    var builder := head;
    ghost var n := 0;
    while |builder| < chars
      invariant builder == head + Repeat(text, n) && n <= chars
      decreases chars - |builder|
    {
      LongEnough(text, n);
      builder := builder + text;
      n := n + 1;
    }
    LongEnough(text, chars);
    RepeatPrefix(text, n, chars);
    assert builder <= head + Repeat(text, chars);
    PrefixTake(builder, head + Repeat(text, chars), chars);
    filler := builder[..chars];
  }

  method PromptFiller(sequence: nat, tokens: nat) returns (filler: string)
    ensures filler == Filler(sequence, tokens * CHARS_PER_TOKEN)
  {
    filler := FillUp(FillerHead(sequence), SENTENCE, tokens * CHARS_PER_TOKEN);
  }

  /** Padding is different for every request as soon as it is long enough to show the number, so it is
      not cached either. */
  lemma FillersDiffer(m: nat, n: nat, a: nat, b: nat, prompt: string, prompt': string)
    requires m != n && a >= |FillerHead(m)| && b >= |FillerHead(n)|
    ensures Filler(m, a) + prompt != Filler(n, b) + prompt'
  {
    if Filler(m, a) + prompt == Filler(n, b) + prompt' {
      var x := FillerRest(m, a, prompt);
      var y := FillerRest(n, b, prompt');
      hide Filler, FillerHead, Decimal;
      CutPrefix("[pad-", Decimal(m) + [']'] + x, "[pad-", Decimal(n) + [']'] + y);
      SplitUnique(Decimal(m), x, ']', Decimal(n), y);
      DecimalInjective(m, n);
    }
  }

  lemma FillerRest(sequence: nat, chars: nat, prompt: string) returns (rest: string)
    requires chars >= |FillerHead(sequence)|
    ensures Filler(sequence, chars) + prompt == "[pad-" + (Decimal(sequence) + [']'] + rest)
  {
    LongEnough(SENTENCE, chars);
    var n := |FillerHead(sequence)|;
    rest := " " + Repeat(SENTENCE, chars)[..chars - n] + prompt;
    assert Filler(sequence, chars) == FillerHead(sequence) + Repeat(SENTENCE, chars)[..chars - n];
  }

  /** The jitter of one request: its output length, which never drops below 1 token, and the padding of its prompt. */
  function Shaped(work: Work, shaping: Shaping, hash: string -> nat, sequence: nat): (w: Work)
    ensures w.name == work.name && w.thinkMillis == work.thinkMillis && work.prompt <= w.prompt
    ensures work.maxTokens >= 1 ==> w.maxTokens >= 1
    ensures var reach := Max(0, shaping.outputStdev); -reach <= w.maxTokens - work.maxTokens <= reach
  {
    var jittered := work.maxTokens + Jitter(hash, "osl", sequence, shaping.outputStdev);
    var pad := shaping.padTokens + Jitter(hash, "isl", sequence, shaping.padStdev);
    Work(work.name, if pad > 0 then work.prompt + BREAK + Filler(sequence, pad * CHARS_PER_TOKEN) else work.prompt,
         work.thinkMillis, if jittered >= 1 then jittered else work.maxTokens)
  }

  /** The work of the request with this number. */
  function WorkFor(config: RunConfig, shaping: Shaping, hash: string -> nat, sequence: nat): Work
  {
    Shaped(TaskFor(config, sequence), shaping, hash, sequence)
  }

  function JourneyFor(journeys: seq<UserJourney>, sequence: nat): UserJourney
    requires journeys != []
  {
    match Choose(JourneyWeights(journeys), sequence)
    case Some(i) => journeys[i]
    case None => journeys[0]
  }

  lemma SumFrom(weights: seq<int>, i: nat)
    requires i < |weights|
    ensures WeightSum(weights[i..]) == weights[i] + WeightSum(weights[i + 1..])
  {
    assert weights[i..][1..] == weights[i + 1..];
  }

  lemma PickFrom(weights: seq<int>, i: nat, pick: int)
    requires i < |weights|
    ensures Pick(weights[i..], pick)
         == if pick - weights[i] < 0 then Some(0)
            else if Pick(weights[i + 1..], pick - weights[i]).Some?
                 then Some(Pick(weights[i + 1..], pick - weights[i]).value + 1) else None
  {
    assert weights[i..][1..] == weights[i + 1..];
  }

  /** The loop both choices share: subtract weights until the pick is used up. */
  method WeightedPick(weights: seq<int>, sequence: nat) returns (chosen: Option<nat>)
    ensures chosen == Choose(weights, sequence) && (WeightSum(weights) > 0 ==> chosen.Some?)
  {
    var total := 0;
    for i := 0 to |weights|
      invariant total + WeightSum(weights[i..]) == WeightSum(weights)
    {
      SumFrom(weights, i);
      total := total + weights[i];
    }
    if total <= 0 { return None; }
    var pick := sequence % total;
    SomethingChosen(weights, pick);
    for i := 0 to |weights|
      invariant Pick(weights, sequence % total)
             == if Pick(weights[i..], pick).Some? then Some(i + Pick(weights[i..], pick).value) else None
    {
      PickFrom(weights, i, pick);
      pick := pick - weights[i];
      if pick < 0 { return Some(i); }
    }
    return None;
  }

  class Sequences {
    var sequence: nat
    var journeySequence: nat

    constructor ()
      ensures sequence == 0 && journeySequence == 0
    {
      sequence, journeySequence := 0, 0;
    }

    method NextWorkload(config: RunConfig, shaping: Shaping, hash: string -> nat)
      returns (number: nat, varied: bool, work: Work)
      modifies this`sequence
      ensures number == sequence == old(sequence) + 1
      ensures varied == Varied(config, number) && work == WorkFor(config, shaping, hash, number)
    {
      hide Jitter, Filler, Choose;
      sequence := sequence + 1;
      number := sequence;
      work := Work("", config.prompt, 0, config.maxTokens);
      var chosen := WeightedPick(TaskWeights(config.scenario), number);
      if chosen.Some? {
        var task := config.scenario[chosen.value];
        work := Work(task.name, task.prompt, task.thinkMillis, config.maxTokens);
        if task.maxTokens > 0 { work := work.(maxTokens := task.maxTokens); }
      }
      var spread := Jitter(hash, "osl", number, shaping.outputStdev);
      if spread != 0 {
        if work.maxTokens + spread >= 1 { work := work.(maxTokens := work.maxTokens + spread); }
      }
      var pad := shaping.padTokens + Jitter(hash, "isl", number, shaping.padStdev);
      if pad > 0 {
        var filler := PromptFiller(number, pad);
        work := work.(prompt := work.prompt + BREAK + filler);
      }
      var policy := config.cachePolicy;
      if policy == Unset { policy := Reuse; }
      varied := policy == Bypass;
      if policy == Mixed {
        var percent := config.variationPercent;
        if percent == 0 { percent := DEFAULT_VARIATION; }
        varied := (number * 37) % 100 < percent;
      }
    }

    /** Journeys have a counter of their own. */
    method NextJourney(journeys: seq<UserJourney>) returns (journey: UserJourney)
      requires journeys != [] && NonNegative(JourneyWeights(journeys))
      modifies this`journeySequence
      ensures journeySequence == old(journeySequence) + 1 && journey == JourneyFor(journeys, journeySequence)
    {
      journeySequence := journeySequence + 1;
      var chosen := WeightedPick(JourneyWeights(journeys), journeySequence);
      if chosen.None? { return journeys[0]; }
      return journeys[chosen.value];
    }
  }
}
