/** Sums over a sequence, and the fact every merge rests on: a sum does not depend on the order. */
module Folds {
  function SumBy<T>(f: T -> int, s: seq<T>): int
  {
    if s == [] then 0 else f(s[0]) + SumBy(f, s[1..])
  }

  lemma {:induction false} SumByConcat<T>(f: T -> int, a: seq<T>, b: seq<T>)
    ensures SumBy(f, a + b) == SumBy(f, a) + SumBy(f, b)
  {
    if a == [] {
      assert a + b == b;
    } else {
      assert (a + b)[1..] == a[1..] + b;
      SumByConcat(f, a[1..], b);
    }
  }

  lemma SumBySnoc<T>(f: T -> int, s: seq<T>, x: T)
    ensures SumBy(f, s + [x]) == SumBy(f, s) + f(x)
  {
    SumByConcat(f, s, [x]);
    assert [x][1..] == [];
  }

  lemma CutMultiset<T>(b: seq<T>, k: nat)
    requires k < |b|
    ensures multiset(b) == multiset(b[..k] + b[k + 1..]) + multiset{b[k]}
  {
    assert b == b[..k] + [b[k]] + b[k + 1..];
  }

  lemma PutIn<T>(x: T, s: seq<T>, n: nat)
    requires n <= |s|
    ensures multiset(s[..n] + [x] + s[n..]) == multiset(s) + multiset{x}
  {
    assert s == s[..n] + s[n..];
  }

  lemma OneLess<T>(a: multiset<T>, b: multiset<T>, x: T)
    requires a + multiset{x} == b + multiset{x}
    ensures a == b
  {
    assert a == (a + multiset{x}) - multiset{x} && b == (b + multiset{x}) - multiset{x};
  }

  /** A permutation of `[x] + s` is `s` with x put in at some place. */
  lemma PlaceOf<T>(x: T, s: seq<T>, b: seq<T>) returns (k: nat)
    requires multiset([x] + s) == multiset(b)
    ensures k < |b| && b[k] == x && multiset(b[..k] + b[k + 1..]) == multiset(s)
  {
    assert multiset([x] + s) == multiset(s) + multiset{x};
    assert x in multiset(b);
    k :| 0 <= k < |b| && b[k] == x;
    CutMultiset(b, k);
    OneLess(multiset(b[..k] + b[k + 1..]), multiset(s), x);
  }

  lemma {:induction false} SumByPermutation<T>(f: T -> int, a: seq<T>, b: seq<T>)
    requires multiset(a) == multiset(b)
    ensures SumBy(f, a) == SumBy(f, b)
    decreases |a|
  {
    if a == [] {
      assert |multiset(b)| == 0;
    } else {
      assert a == [a[0]] + a[1..];
      var k := PlaceOf(a[0], a[1..], b);
      var rest := b[..k] + b[k + 1..];
      SumByPermutation(f, a[1..], rest);
      SumByConcat(f, b[..k], b[k + 1..]);
      SumByConcat(f, b[..k], [b[k]] + b[k + 1..]);
      assert b == b[..k] + ([b[k]] + b[k + 1..]);
      assert ([b[k]] + b[k + 1..])[1..] == b[k + 1..];
    }
  }

  /** The elements of several lists, one list after the other. */
  function Flatten<T>(lists: seq<seq<T>>): seq<T>
  {
    if lists == [] then [] else Flatten(lists[..|lists| - 1]) + lists[|lists| - 1]
  }

  lemma FlattenLast<T>(lists: seq<seq<T>>)
    requires lists != []
    ensures Flatten(lists) == Flatten(lists[..|lists| - 1]) + lists[|lists| - 1]
  {
  }

  lemma FlattenSnoc<T>(lists: seq<seq<T>>, last: seq<T>)
    ensures Flatten(lists + [last]) == Flatten(lists) + last
  {
    assert (lists + [last])[..|lists|] == lists;
  }

  lemma {:induction false} FlattenConcat<T>(a: seq<seq<T>>, b: seq<seq<T>>)
    ensures Flatten(a + b) == Flatten(a) + Flatten(b)
  {
    if b == [] {
      assert a + b == a;
    } else {
      var n := |b| - 1;
      assert a + b == (a + b[..n]) + [b[n]];
      FlattenSnoc(a + b[..n], b[n]);
      FlattenConcat(a, b[..n]);
    }
  }

  /** Taking one list out of the middle takes exactly its elements out of the pool. */
  lemma FlattenSplit<T>(before: seq<seq<T>>, list: seq<T>, after: seq<seq<T>>)
    ensures multiset(Flatten(before + [list] + after)) == multiset(list) + multiset(Flatten(before + after))
  {
    FlattenConcat(before + [list], after);
    FlattenSnoc(before, list);
    FlattenConcat(before, after);
  }

  lemma FlattenBoth<T>(x: seq<T>, rest: seq<seq<T>>, before: seq<seq<T>>, after: seq<seq<T>>)
    requires multiset(Flatten(rest)) == multiset(Flatten(before + after))
    ensures multiset(Flatten([x] + rest)) == multiset(Flatten(before + [x] + after))
  {
    hide Flatten;
    assert [] + [x] + rest == [x] + rest && [] + rest == rest;
    FlattenSplit([], x, rest);
    FlattenSplit(before, x, after);
  }

  /** Reordering whole lists only reorders their pooled elements. */
  lemma {:induction false} FlattenPermutation<T>(a: seq<seq<T>>, b: seq<seq<T>>)
    requires multiset(a) == multiset(b)
    ensures multiset(Flatten(a)) == multiset(Flatten(b))
    decreases |a|
  {
    if a == [] {
      assert |multiset(b)| == 0;
    } else {
      assert a == [a[0]] + a[1..];
      var k := PlaceOf(a[0], a[1..], b);
      var before, after := b[..k], b[k + 1..];
      assert b == before + [a[0]] + after;
      FlattenPermutation(a[1..], before + after);
      FlattenBoth(a[0], a[1..], before, after);
    }
  }

  lemma {:induction false} SumOfNone<T>(f: T -> int, s: seq<T>)
    requires forall i :: 0 <= i < |s| ==> f(s[i]) == 0
    ensures SumBy(f, s) == 0
  {
    if s != [] { SumOfNone(f, s[1..]); }
  }

  lemma {:induction false} SumOfOne<T>(f: T -> int, s: seq<T>, k: nat)
    requires k < |s| && forall i :: 0 <= i < |s| && i != k ==> f(s[i]) == 0
    ensures SumBy(f, s) == f(s[k])
  {
    if k == 0 { SumOfNone(f, s[1..]); } else { SumOfOne(f, s[1..], k - 1); }
  }

  lemma {:induction false} InFlatten<T>(lists: seq<seq<T>>, i: nat, x: T)
    requires i < |lists| && x in lists[i]
    ensures x in Flatten(lists)
  {
    var n := |lists| - 1;
    if i < n { InFlatten(lists[..n], i, x); }
  }

  lemma {:induction false} FlattenNone<T>(lists: seq<seq<T>>)
    requires forall i :: 0 <= i < |lists| ==> lists[i] == []
    ensures Flatten(lists) == []
  {
    if lists != [] { FlattenNone(lists[..|lists| - 1]); }
  }

  lemma {:induction false} FlattenOne<T>(lists: seq<seq<T>>, k: nat)
    requires k < |lists| && forall i :: 0 <= i < |lists| && i != k ==> lists[i] == []
    ensures Flatten(lists) == lists[k]
  {
    var n := |lists| - 1;
    if k == n { FlattenNone(lists[..n]); } else { FlattenOne(lists[..n], k); }
  }

  function Map<A, B>(f: A -> B, s: seq<A>): (r: seq<B>)
    ensures |r| == |s| && forall i :: 0 <= i < |s| ==> r[i] == f(s[i])
  {
    seq(|s|, i requires 0 <= i < |s| => f(s[i]))
  }

  lemma MapSnoc<A, B>(f: A -> B, s: seq<A>, x: A)
    ensures Map(f, s + [x]) == Map(f, s) + [f(x)]
  {
  }

  lemma {:induction false} MapPermutation<A, B>(f: A -> B, a: seq<A>, b: seq<A>)
    requires multiset(a) == multiset(b)
    ensures multiset(Map(f, a)) == multiset(Map(f, b))
    decreases |a|
  {
    if a == [] {
      assert |multiset(b)| == 0;
    } else {
      assert a == [a[0]] + a[1..];
      var k := PlaceOf(a[0], a[1..], b);
      MapPermutation(f, a[1..], b[..k] + b[k + 1..]);
      assert Map(f, a) == [f(a[0])] + Map(f, a[1..]);
      assert Map(f, b) == Map(f, b[..k]) + [f(b[k])] + Map(f, b[k + 1..]);
      assert Map(f, b[..k] + b[k + 1..]) == Map(f, b[..k]) + Map(f, b[k + 1..]);
    }
  }

  /** A loop over `s` that updates one accumulator. */
  function FoldLeft<A, B>(step: (A, B) -> A, init: A, s: seq<B>): A
  {
    if s == [] then init else step(FoldLeft(step, init, s[..|s| - 1]), s[|s| - 1])
  }

  lemma FoldSnoc<A, B>(step: (A, B) -> A, init: A, s: seq<B>, x: B)
    ensures FoldLeft(step, init, s + [x]) == step(FoldLeft(step, init, s), x)
  {
    assert (s + [x])[..|s|] == s;
  }

  lemma {:induction false} FoldConcat<A, B>(step: (A, B) -> A, init: A, a: seq<B>, b: seq<B>)
    ensures FoldLeft(step, init, a + b) == FoldLeft(step, FoldLeft(step, init, a), b)
  {
    if b == [] {
      assert a + b == a;
    } else {
      assert (a + b)[..|a + b| - 1] == a + b[..|b| - 1];
      FoldConcat(step, init, a, b[..|b| - 1]);
    }
  }

  /** Which of two elements comes first makes no difference to the loop. */
  ghost predicate Commutes<A(!new), B(!new)>(step: (A, B) -> A)
  {
    forall a, x, y :: step(step(a, x), y) == step(step(a, y), x)
  }

  lemma {:induction false} FoldMove<A(!new), B(!new)>(step: (A, B) -> A, init: A, before: seq<B>, x: B, after: seq<B>)
    requires Commutes(step)
    ensures FoldLeft(step, init, before + [x] + after) == step(FoldLeft(step, init, before + after), x)
    decreases |after|
  {
    if after == [] {
      assert before + [x] + after == before + [x] && before + after == before;
      FoldSnoc(step, init, before, x);
    } else {
      var rest, last := after[..|after| - 1], after[|after| - 1];
      FoldMove(step, init, before, x, rest);
      assert before + [x] + after == (before + [x] + rest) + [last];
      assert before + after == (before + rest) + [last];
      FoldSnoc(step, init, before + [x] + rest, last);
      FoldSnoc(step, init, before + rest, last);
    }
  }

  lemma FoldBoth<A(!new), B(!new)>(step: (A, B) -> A, init: A, x: B, rest: seq<B>, before: seq<B>, after: seq<B>)
    requires Commutes(step) && FoldLeft(step, init, rest) == FoldLeft(step, init, before + after)
    ensures FoldLeft(step, init, [x] + rest) == FoldLeft(step, init, before + [x] + after)
  {
    FoldMove(step, init, [], x, rest);
    FoldMove(step, init, before, x, after);
    assert [] + [x] + rest == [x] + rest && [] + rest == rest;
  }

  /** A loop whose steps commute gives the same result in every order. */
  lemma {:induction false} FoldPermutation<A(!new), B(!new)>(step: (A, B) -> A, init: A, a: seq<B>, b: seq<B>)
    requires Commutes(step) && multiset(a) == multiset(b)
    ensures FoldLeft(step, init, a) == FoldLeft(step, init, b)
    decreases |a|
  {
    if a == [] {
      assert |multiset(b)| == 0;
    } else {
      hide Commutes;
      var x, rest := a[0], a[1..];
      assert a == [x] + rest;
      var k := PlaceOf(x, rest, b);
      var before, after := b[..k], b[k + 1..];
      assert b == before + [x] + after;
      FoldPermutation(step, init, rest, before + after);
      FoldBoth(step, init, x, rest, before, after);
    }
  }
}
