/** Printed identifiers and the cache-bypass nonce (internal/agent/runner.go, `variationPrefix`). */
module Names {
  type digits = s: string | forall i :: 0 <= i < |s| ==> '0' <= s[i] <= '9' witness ""

  /** `%d` of a non-negative number. */
  function Decimal(n: nat): (s: digits)
    ensures |s| >= 1
  {
    if n < 10 then [Digit(n)] else Decimal(n / 10) + [Digit(n % 10)]
  }

  function Digit(n: nat): (c: char)
    requires n < 10
    ensures '0' <= c <= '9'
  {
    "0123456789"[n]
  }

  lemma {:induction false} DecimalInjective(m: nat, n: nat)
    requires Decimal(m) == Decimal(n)
    ensures m == n
  {
    var s, t := Decimal(m), Decimal(n);
    if m >= 10 && n >= 10 {
      assert s[..|s| - 1] == Decimal(m / 10) && t[..|t| - 1] == Decimal(n / 10);
      DecimalInjective(m / 10, n / 10);
      assert s[|s| - 1] == Digit(m % 10) && t[|t| - 1] == Digit(n % 10);
    }
  }

  function RunName(id: nat): string { "run-" + Decimal(id) }
  function ShardName(id: nat): string { "shard-" + Decimal(id) }

  /** The workload ID an assignment carries: run ID, dash, shard ID. */
  function WorkloadName(run: nat, shard: nat): string { RunName(run) + "-" + ShardName(shard) }

  ghost predicate Lacks(s: string, c: char) { forall i :: 0 <= i < |s| ==> s[i] != c }

  /** A string splits in only one way at the first occurrence of a character. */
  lemma SplitUnique(a: string, b: string, c: char, a': string, b': string)
    requires Lacks(a, c) && Lacks(a', c) && a + [c] + b == a' + [c] + b'
    ensures a == a' && b == b'
  {
    var s, s' := a + [c] + b, a' + [c] + b';
    assert s[|a|] == c && s'[|a'|] == c;
    assert s[..|a|] == a && s'[..|a'|] == a';
    assert s[|a| + 1..] == b && s'[|a'| + 1..] == b';
  }

  lemma WorkloadNameParts(run: nat, shard: nat)
    ensures WorkloadName(run, shard)[4..] == Decimal(run) + ['-'] + ShardName(shard)
    ensures ShardName(shard)[6..] == Decimal(shard)
  {
    hide Decimal;
  }

  lemma WorkloadNameInjective(run: nat, shard: nat, run': nat, shard': nat)
    requires WorkloadName(run, shard) == WorkloadName(run', shard')
    ensures run == run' && shard == shard'
  {
    WorkloadNameParts(run, shard);
    WorkloadNameParts(run', shard');
    hide WorkloadName, ShardName;
    SplitUnique(Decimal(run), ShardName(shard), '-', Decimal(run'), ShardName(shard'));
    DecimalInjective(run, run');
    DecimalInjective(shard, shard');
  }

  const BREAK := "\n\n"
  const QUERY_RUN := "__lo_run="
  const QUERY_REQUEST := "__lo_request="

  lemma CutPrefix(p: string, x: string, p': string, x': string)
    requires |p| == |p'| && p + x == p' + x'
    ensures x == x'
  {
    assert (p + x)[|p|..] == x && (p' + x')[|p'|..] == x';
  }

  /** The eight hexadecimal digits of a 32-bit hash; which digits does not matter here. */
  type hex8 = s: string | |s| == 8 witness "00000000"

  /** `[LO-%08x %s#%d]` and two line breaks, in front of the prompt; the hash is any function of the rest. */
  function VariationPrefix(hash: string -> hex8, workload: string, sequence: nat): string
  {
    var readable := workload + "#" + Decimal(sequence);
    "[LO-" + hash(readable) + " " + readable + "]" + BREAK
  }

  /** The query parameters that take the prefix's place on a web target. */
  function VariationQuery(workload: string, sequence: nat): string
  {
    QUERY_RUN + workload + "&" + QUERY_REQUEST + Decimal(sequence)
  }

  lemma WorkloadNameLacks(run: nat, shard: nat, c: char)
    requires c == '#' || c == '&'
    ensures Lacks(WorkloadName(run, shard), c)
  {
  }

  lemma PrefixShape(hash: string -> hex8, workload: string, sequence: nat, prompt: string)
    ensures |VariationPrefix(hash, workload, sequence) + prompt| >= 13
    ensures (VariationPrefix(hash, workload, sequence) + prompt)[13..]
         == workload + ['#'] + (Decimal(sequence) + [']'] + (BREAK + prompt))
  {
    var readable := workload + "#" + Decimal(sequence);
    var head := "[LO-" + hash(readable) + " ";
    assert |head| == 13;
    assert VariationPrefix(hash, workload, sequence) + prompt
        == head + (workload + ['#'] + (Decimal(sequence) + [']'] + (BREAK + prompt)));
  }

  /** The printed nonce determines the run, the shard and the sequence number, whatever the hash and the prompt. */
  lemma NonceDetermines(hash: string -> hex8, run: nat, shard: nat, sequence: nat, prompt: string,
                        run': nat, shard': nat, sequence': nat, prompt': string)
    requires VariationPrefix(hash, WorkloadName(run, shard), sequence) + prompt
          == VariationPrefix(hash, WorkloadName(run', shard'), sequence') + prompt'
    ensures run == run' && shard == shard' && sequence == sequence' && prompt == prompt'
  {
    var w, w' := WorkloadName(run, shard), WorkloadName(run', shard');
    var d, d' := Decimal(sequence), Decimal(sequence');
    PrefixShape(hash, w, sequence, prompt);
    PrefixShape(hash, w', sequence', prompt');
    WorkloadNameLacks(run, shard, '#');
    WorkloadNameLacks(run', shard', '#');
    hide WorkloadName, Decimal, VariationPrefix;
    SplitUnique(w, d + [']'] + (BREAK + prompt), '#', w', d' + [']'] + (BREAK + prompt'));
    SplitUnique(d, BREAK + prompt, ']', d', BREAK + prompt');
    CutPrefix(BREAK, prompt, BREAK, prompt');
    WorkloadNameInjective(run, shard, run', shard');
    DecimalInjective(sequence, sequence');
  }

  lemma QueryShape(workload: string, sequence: nat)
    ensures VariationQuery(workload, sequence) == QUERY_RUN + (workload + ['&'] + (QUERY_REQUEST + Decimal(sequence)))
  {
  }

  lemma QueryDetermines(run: nat, shard: nat, sequence: nat, run': nat, shard': nat, sequence': nat)
    requires VariationQuery(WorkloadName(run, shard), sequence) == VariationQuery(WorkloadName(run', shard'), sequence')
    ensures run == run' && shard == shard' && sequence == sequence'
  {
    var w, w' := WorkloadName(run, shard), WorkloadName(run', shard');
    var d, d' := Decimal(sequence), Decimal(sequence');
    QueryShape(w, sequence);
    QueryShape(w', sequence');
    WorkloadNameLacks(run, shard, '&');
    WorkloadNameLacks(run', shard', '&');
    hide WorkloadName, Decimal, VariationQuery;
    CutPrefix(QUERY_RUN, w + ['&'] + (QUERY_REQUEST + d), QUERY_RUN, w' + ['&'] + (QUERY_REQUEST + d'));
    SplitUnique(w, QUERY_REQUEST + d, '&', w', QUERY_REQUEST + d');
    CutPrefix(QUERY_REQUEST, d, QUERY_REQUEST, d');
    WorkloadNameInjective(run, shard, run', shard');
    DecimalInjective(sequence, sequence');
  }
}
