// Order-preserving de-duplication (the `seen`-set loops and `dict.fromkeys`
// idiom of the scripts) and counting over sequences.
module Seqs {

  predicate NoDup<T(==)>(s: seq<T>)
  {
    forall i, j :: 0 <= i < j < |s| ==> s[i] != s[j]
  }

  /** The first occurrences of the elements of `s`, in the order they first appear. */
  function Dedup<T(==)>(s: seq<T>): (r: seq<T>)
    ensures NoDup(r)
    ensures forall i :: 0 <= i < |r| ==> r[i] in s
    ensures forall i :: 0 <= i < |s| ==> s[i] in r
    ensures |r| <= |s|
    decreases |s|
  {
    if s == [] then []
    else
      var d := Dedup(s[..|s| - 1]);
      assert s == s[..|s| - 1] + [s[|s| - 1]];
      if s[|s| - 1] in d then d else d + [s[|s| - 1]]
  }

  /** One step of the de-duplicating loop: append `x` unless it was seen. */
  lemma DedupSnoc<T>(s: seq<T>, x: T)
    ensures Dedup(s + [x]) == if x in Dedup(s) then Dedup(s) else Dedup(s) + [x]
  {
    assert (s + [x])[..|s|] == s;
  }

  lemma DedupPrefixStep<T>(s: seq<T>, k: nat)
    requires k < |s|
    ensures Dedup(s[..k + 1]) == if s[k] in Dedup(s[..k]) then Dedup(s[..k]) else Dedup(s[..k]) + [s[k]]
  {
    assert s[..k + 1] == s[..k] + [s[k]];
    DedupSnoc(s[..k], s[k]);
  }

  /** The same elements, as sets. */
  lemma InConcat<T>(a: seq<T>, b: seq<T>, y: T)
    ensures y in a + b <==> y in a || y in b
  {
  }

  lemma DedupMembers<T>(s: seq<T>)
    ensures forall x :: x in Dedup(s) <==> x in s
  {
  }

  /** Index of the first occurrence of `x` in `s`. */
  function FirstIndex<T(==)>(s: seq<T>, x: T): (k: nat)
    requires x in s
    ensures k < |s| && s[k] == x && x !in s[..k]
    decreases |s|
  {
    if s[0] == x then 0
    else
      var k := FirstIndex(s[1..], x);
      assert s[..k + 1] == [s[0]] + s[1..][..k];
      k + 1
  }

  lemma FirstIndexPrefix<T>(s: seq<T>, n: nat, x: T)
    requires n <= |s| && x in s[..n]
    ensures x in s && FirstIndex(s, x) == FirstIndex(s[..n], x)
  {
    var k := FirstIndex(s[..n], x);
    assert s[..k] == s[..n][..k];
  }

  /** De-duplication keeps first-seen order: earlier elements of the result were
      seen first in the input. */
  lemma {:induction false} DedupOrder<T>(s: seq<T>, i: nat, j: nat)
    requires i < j < |Dedup(s)|
    ensures Dedup(s)[i] in s && Dedup(s)[j] in s
    ensures FirstIndex(s, Dedup(s)[i]) < FirstIndex(s, Dedup(s)[j])
    decreases |s|
  {
    var init, x := s[..|s| - 1], s[|s| - 1];
    var d := Dedup(init);
    assert s == init + [x];
    FirstIndexPrefix(s, |s| - 1, d[i]);
    if x in d {
      DedupOrder(init, i, j);
      FirstIndexPrefix(s, |s| - 1, d[j]);
    } else if j < |d| {
      DedupOrder(init, i, j);
      FirstIndexPrefix(s, |s| - 1, d[j]);
    } else {
      assert Dedup(s)[j] == x && x !in init;
      assert FirstIndex(s, x) == |s| - 1;
    }
  }

  /** Every element's first occurrence is kept: nothing seen is dropped. */
  lemma DedupComplete<T>(s: seq<T>, k: nat)
    requires k < |s| && s[k] !in s[..k]
    ensures s[k] in Dedup(s)
  {
  }

  /** A sequence without repetitions is its own de-duplication. */
  lemma {:induction false} DedupOfNoDup<T>(s: seq<T>)
    requires NoDup(s)
    ensures Dedup(s) == s
    decreases |s|
  {
    if s != [] {
      var init := s[..|s| - 1];
      assert NoDup(init);
      DedupOfNoDup(init);
      assert s[|s| - 1] !in init;
      assert s == init + [s[|s| - 1]];
    }
  }

  function CountIf<T>(s: seq<T>, p: T -> bool): (n: nat)
    ensures n <= |s|
    decreases |s|
  {
    if s == [] then 0 else CountIf(s[..|s| - 1], p) + (if p(s[|s| - 1]) then 1 else 0)
  }

  lemma {:induction false} CountIfNone<T>(s: seq<T>, p: T -> bool)
    requires forall k :: 0 <= k < |s| ==> !p(s[k])
    ensures CountIf(s, p) == 0
    decreases |s|
  {
    if s != [] {
      CountIfNone(s[..|s| - 1], p);
    }
  }

  lemma {:induction false} CountIfAppend<T>(a: seq<T>, b: seq<T>, p: T -> bool)
    ensures CountIf(a + b, p) == CountIf(a, p) + CountIf(b, p)
    decreases |b|
  {
    if b == [] {
      assert a + b == a;
    } else {
      assert (a + b)[..|a + b| - 1] == a + b[..|b| - 1];
      CountIfAppend(a, b[..|b| - 1], p);
    }
  }

  lemma CountIfPrefixStep<T>(s: seq<T>, p: T -> bool, k: nat)
    requires k < |s|
    ensures CountIf(s[..k + 1], p) == CountIf(s[..k], p) + (if p(s[k]) then 1 else 0)
  {
    assert s[..k + 1][..k] == s[..k];
  }

  /** In a sequence without repetitions a predicate that singles out one
      present element counts exactly once. */
  lemma {:induction false} CountIfNoDupOne<T>(s: seq<T>, p: T -> bool, x: T)
    requires NoDup(s) && x in s
    requires forall y :: p(y) <==> y == x
    ensures CountIf(s, p) == 1
    decreases |s|
  {
    var init, last := s[..|s| - 1], s[|s| - 1];
    assert NoDup(init);
    if last == x {
      assert x !in init;
      CountIfNone(init, p);
    } else {
      assert s == init + [last];
      CountIfNoDupOne(init, p, x);
    }
  }

  /** Counts under two predicates that split every element add up to the length. */
  lemma {:induction false} CountIfSplit<T>(s: seq<T>, p: T -> bool, q: T -> bool)
    requires forall k :: 0 <= k < |s| ==> (p(s[k]) || q(s[k])) && !(p(s[k]) && q(s[k]))
    ensures CountIf(s, p) + CountIf(s, q) == |s|
    decreases |s|
  {
    if s != [] {
      CountIfSplit(s[..|s| - 1], p, q);
    }
  }

  /** Keep the elements satisfying `p`, in order. */
  function Filter<T>(s: seq<T>, p: T -> bool): (r: seq<T>)
    ensures |r| == CountIf(s, p)
    ensures forall i :: 0 <= i < |r| ==> r[i] in s && p(r[i])
    decreases |s|
  {
    if s == [] then []
    else Filter(s[..|s| - 1], p) + (if p(s[|s| - 1]) then [s[|s| - 1]] else [])
  }

  lemma {:induction false} FilterComplete<T>(s: seq<T>, p: T -> bool, k: nat)
    requires k < |s| && p(s[k])
    ensures s[k] in Filter(s, p)
    decreases |s|
  {
    if k < |s| - 1 {
      assert s[..|s| - 1][k] == s[k];
      FilterComplete(s[..|s| - 1], p, k);
    }
  }

  /** Nothing is kept exactly when no element satisfies `p`. */
  lemma FilterEmptyIff<T>(s: seq<T>, p: T -> bool)
    ensures Filter(s, p) == [] <==> forall i :: 0 <= i < |s| ==> !p(s[i])
  {
    if exists i :: 0 <= i < |s| && p(s[i]) {
      var i :| 0 <= i < |s| && p(s[i]);
      FilterComplete(s, p, i);
    }
    var r := Filter(s, p);
    if r != [] {
      assert r[0] in s && p(r[0]);
    }
  }

  /** One more element of a prefix: it is kept exactly when it satisfies `p`. */
  lemma FilterPrefixStep<T>(s: seq<T>, p: T -> bool, k: nat)
    requires k < |s|
    ensures Filter(s[..k + 1], p) == Filter(s[..k], p) + (if p(s[k]) then [s[k]] else [])
  {
    assert s[..k + 1][..k] == s[..k];
  }

  /** Append `x` unless it is already present (the `if x not in acc` idiom). */
  function AddNew<T(==)>(acc: seq<T>, x: T): (r: seq<T>)
    ensures NoDup(acc) ==> NoDup(r)
    ensures x in r && (forall i :: 0 <= i < |acc| ==> acc[i] in r)
  {
    if x in acc then acc else acc + [x]
  }

  /** Append the elements of `xs` in order, each unless already present. */
  function AddAll<T(==)>(acc: seq<T>, xs: seq<T>): (r: seq<T>)
    ensures NoDup(acc) ==> NoDup(r)
    decreases |xs|
  {
    if xs == [] then acc else AddNew(AddAll(acc, xs[..|xs| - 1]), xs[|xs| - 1])
  }

  /** Adding at most one more element. */
  lemma AddAllStep<T>(pre: seq<T>, done: seq<T>, one: seq<T>, full: seq<T>, acc: seq<T>)
    requires full == done + one && |one| <= 1 && acc == AddAll(pre, done)
    ensures AddAll(pre, full) == if one == [] then acc else AddNew(acc, one[0])
  {
    AddAllAppend(pre, done, one);
    if one != [] {
      assert one[..0] == [];
    }
  }

  /** Adding without repeats to a repetition-free prefix is de-duplication of
      the concatenation. */
  lemma {:induction false} AddAllIsDedup<T>(acc: seq<T>, xs: seq<T>)
    requires NoDup(acc)
    ensures AddAll(acc, xs) == Dedup(acc + xs)
    decreases |xs|
  {
    if xs == [] {
      assert acc + xs == acc;
      DedupOfNoDup(acc);
    } else {
      var init, x := xs[..|xs| - 1], xs[|xs| - 1];
      AddAllIsDedup(acc, init);
      assert acc + xs == (acc + init) + [x];
      DedupSnoc(acc + init, x);
    }
  }

  lemma AddAllSnoc<T>(acc: seq<T>, xs: seq<T>, x: T)
    ensures AddAll(acc, xs + [x]) == AddNew(AddAll(acc, xs), x)
  {
    assert (xs + [x])[..|xs|] == xs;
  }

  /** Adding two runs one after the other is adding their concatenation. */
  lemma {:induction false} AddAllAppend<T>(acc: seq<T>, xs: seq<T>, ys: seq<T>)
    ensures AddAll(AddAll(acc, xs), ys) == AddAll(acc, xs + ys)
    decreases |ys|
  {
    if ys == [] {
      assert xs + ys == xs;
    } else {
      var init, y := ys[..|ys| - 1], ys[|ys| - 1];
      AddAllAppend(acc, xs, init);
      assert xs + ys == (xs + init) + [y];
      AddAllSnoc(acc, xs + init, y);
    }
  }

  /** `f` applied to each element together with its position, counted from `first`. */
  function MapFrom<A, B>(f: (A, nat) -> B, xs: seq<A>, first: nat): (r: seq<B>)
    ensures |r| == |xs|
    decreases |xs|
  {
    if xs == [] then [] else MapFrom(f, xs[..|xs| - 1], first) + [f(xs[|xs| - 1], first + |xs| - 1)]
  }

  lemma {:induction false} MapFromAt<A, B>(f: (A, nat) -> B, xs: seq<A>, first: nat, k: nat)
    requires k < |xs|
    ensures MapFrom(f, xs, first)[k] == f(xs[k], first + k)
    decreases |xs|
  {
    if k < |xs| - 1 {
      assert xs[..|xs| - 1][k] == xs[k];
      MapFromAt(f, xs[..|xs| - 1], first, k);
    }
  }

  lemma {:induction false} MapFromAppend<A, B>(f: (A, nat) -> B, a: seq<A>, b: seq<A>, first: nat)
    ensures MapFrom(f, a + b, first) == MapFrom(f, a, first) + MapFrom(f, b, first + |a|)
    decreases |b|
  {
    if b == [] {
      assert a + b == a;
    } else {
      assert (a + b)[..|a + b| - 1] == a + b[..|b| - 1];
      MapFromAppend(f, a, b[..|b| - 1], first);
    }
  }

  /** One more element of a prefix adds its image at the end. */
  lemma MapFromPrefixStep<A, B>(f: (A, nat) -> B, xs: seq<A>, first: nat, k: nat)
    requires k < |xs|
    ensures MapFrom(f, xs[..k + 1], first) == MapFrom(f, xs[..k], first) + [f(xs[k], first + k)]
  {
    assert xs[..k + 1][..k] == xs[..k];
  }

  lemma MapFromPrefixSnoc<A, B>(f: (A, nat) -> B, xs: seq<A>, first: nat, k: nat, done: seq<B>, y: B)
    requires k < |xs| && done == MapFrom(f, xs[..k], first) && y == f(xs[k], first + k)
    ensures done + [y] == MapFrom(f, xs[..k + 1], first)
  {
    MapFromPrefixStep(f, xs, first, k);
  }

  /** The concatenation of `f` applied to each element and its position,
      counted from `first` (a loop that appends zero or more items per element). */
  function FlatMap<A, B>(f: (A, nat) -> seq<B>, xs: seq<A>, first: nat): (r: seq<B>)
    decreases |xs|
  {
    if xs == [] then [] else FlatMap(f, xs[..|xs| - 1], first) + f(xs[|xs| - 1], first + |xs| - 1)
  }

  /** One more element of a prefix appends its items at the end. */
  lemma FlatMapPrefixStep<A, B>(f: (A, nat) -> seq<B>, xs: seq<A>, first: nat, k: nat)
    requires k < |xs|
    ensures FlatMap(f, xs[..k + 1], first) == FlatMap(f, xs[..k], first) + f(xs[k], first + k)
  {
    assert xs[..k + 1][..k] == xs[..k];
  }

  /** Nothing is appended when no element contributes anything. */
  lemma {:induction false} FlatMapEmpty<A, B>(f: (A, nat) -> seq<B>, xs: seq<A>, first: nat)
    requires forall k :: 0 <= k < |xs| ==> f(xs[k], first + k) == []
    ensures FlatMap(f, xs, first) == []
    decreases |xs|
  {
    if xs != [] {
      var init := xs[..|xs| - 1];
      forall k | 0 <= k < |init| ensures f(init[k], first + k) == [] {
        assert init[k] == xs[k];
      }
      FlatMapEmpty(f, init, first);
    }
  }

  /** Every item of a flat map satisfies `P` when every contributed item does. */
  lemma {:induction false} FlatMapAll<A, B>(f: (A, nat) -> seq<B>, xs: seq<A>, first: nat, P: B -> bool)
    requires forall k :: 0 <= k < |xs| ==> forall y :: y in f(xs[k], first + k) ==> P(y)
    ensures forall y :: y in FlatMap(f, xs, first) ==> P(y)
    decreases |xs|
  {
    if xs != [] {
      var init := xs[..|xs| - 1];
      forall k | 0 <= k < |init| ensures forall y :: y in f(init[k], first + k) ==> P(y) {
        assert init[k] == xs[k];
      }
      FlatMapAll(f, init, first, P);
    }
  }

  /** Flat maps of two functions that agree on every element are equal. */
  lemma {:induction false} FlatMapCongruent<A, B>(f: (A, nat) -> seq<B>, g: (A, nat) -> seq<B>, xs: seq<A>, first: nat)
    requires forall k :: 0 <= k < |xs| ==> f(xs[k], first + k) == g(xs[k], first + k)
    ensures FlatMap(f, xs, first) == FlatMap(g, xs, first)
    decreases |xs|
  {
    if xs != [] {
      var init := xs[..|xs| - 1];
      forall k | 0 <= k < |init| ensures f(init[k], first + k) == g(init[k], first + k) {
        assert init[k] == xs[k];
      }
      FlatMapCongruent(f, g, init, first);
    }
  }

  lemma Regroup<T>(a: seq<T>, b: seq<T>, c: seq<T>, before: seq<T>, after: seq<T>)
    requires before == a + b && after == before + c
    ensures after == a + (b + c)
  {
  }

  lemma SnocAssoc<T>(a: seq<T>, b: seq<T>, x: T)
    ensures a + (b + [x]) == (a + b) + [x]
  {
  }

  lemma AppendAssoc<T>(a: seq<T>, b: seq<T>, c: seq<T>)
    ensures a + (b + c) == (a + b) + c
  {
  }

  /** The three parts of `a + b + c`, by position. */
  lemma PartsOfThree<T>(a: seq<T>, b: seq<T>, c: seq<T>)
    ensures (a + b + c)[..|a|] == a
    ensures (a + b + c)[|a|..|a| + |b|] == b
    ensures (a + b + c)[|a| + |b|..] == c
  {
  }

  lemma SliceOfSlice<T>(s: seq<T>, i: nat, a: nat, b: nat)
    requires i + b <= |s| && a <= b
    ensures s[i..][a..b] == s[i + a..i + b]
  {
  }

  /** One more element of a prefix. */
  lemma PrefixSnoc<T>(s: seq<T>, k: nat, done: seq<T>, x: T)
    requires k < |s| && done == s[..k] && x == s[k]
    ensures s[..k + 1] == done + [x]
  {
  }
}
