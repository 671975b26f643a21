/**
 * Sequence helpers the handlers' loops share: order-preserving selection,
 * one block of output per element, and counting.
 */
module Seqs {

  /** The number of elements of `xs` that satisfy `p`. */
  function CountWhere<T>(xs: seq<T>, p: T -> bool): nat
    decreases |xs|
  {
    if |xs| == 0 then 0
    else (if p(xs[0]) then 1 else 0) + CountWhere(xs[1..], p)
  }

  /** `a` can be obtained from `b` by deleting elements, keeping the order of the rest. */
  predicate IsSubsequence<T(==)>(a: seq<T>, b: seq<T>)
    decreases |b|
  {
    if |a| == 0 then true
    else if |b| == 0 then false
    else (a[0] == b[0] && IsSubsequence(a[1..], b[1..])) || IsSubsequence(a, b[1..])
  }

  /**
   * The elements of `xs` that satisfy `p`, in their original order: the result
   * is a subsequence of `xs`, all of its elements satisfy `p`, and it is as long
   * as the number of elements of `xs` that satisfy `p`, so none is dropped.
   */
  function Filter<T(==)>(xs: seq<T>, p: T -> bool): (r: seq<T>)
    ensures IsSubsequence(r, xs)
    ensures forall i | 0 <= i < |r| :: p(r[i])
    ensures |r| == CountWhere(xs, p)
    decreases |xs|
  {
    if |xs| == 0 then []
    else if p(xs[0]) then [xs[0]] + Filter(xs[1..], p)
    else Filter(xs[1..], p)
  }

  /** A predicate that every element satisfies keeps the whole sequence. */
  lemma {:induction false} FilterAll<T>(xs: seq<T>, p: T -> bool)
    requires forall i | 0 <= i < |xs| :: p(xs[i])
    ensures Filter(xs, p) == xs
    decreases |xs|
  {
    if |xs| > 0 {
      FilterAll(xs[1..], p);
      assert [xs[0]] + xs[1..] == xs;
    }
  }

  /** An element that satisfies `p` is kept. */
  lemma {:induction false} FilterKeeps<T>(xs: seq<T>, p: T -> bool, i: int)
    requires 0 <= i < |xs| && p(xs[i])
    ensures xs[i] in Filter(xs, p)
    decreases |xs|
  {
    if i > 0 {
      FilterKeeps(xs[1..], p, i - 1);
    }
  }

  /** Predicates that agree on every element of `xs` select the same elements. */
  lemma {:induction false} FilterAgree<T>(xs: seq<T>, p: T -> bool, q: T -> bool)
    requires forall i | 0 <= i < |xs| :: p(xs[i]) == q(xs[i])
    ensures Filter(xs, p) == Filter(xs, q)
    decreases |xs|
  {
    if |xs| > 0 {
      FilterAgree(xs[1..], p, q);
    }
  }

  /** Where each part of a three-part concatenation sits. */
  lemma ConcatParts<T>(a: seq<T>, b: seq<T>, c: seq<T>)
    ensures (a + b + c)[..|a|] == a
    ensures (a + b + c)[|a|..|a| + |b|] == b
    ensures (a + b + c)[|a| + |b|..] == c
  {
  }

  /**
   * The blocks `f` gives for the elements of `xs`, one after another: what a
   * loop printing one block per element writes.
   */
  function FlatMap<T, U>(xs: seq<T>, f: T -> seq<U>): seq<U>
    decreases |xs|
  {
    if |xs| == 0 then [] else f(xs[0]) + FlatMap(xs[1..], f)
  }

  /** One element gives exactly its own block. */
  lemma FlatMapOne<T, U>(x: T, f: T -> seq<U>)
    ensures FlatMap([x], f) == f(x)
  {
    assert [x][1..] == [];
  }

  /** The blocks of two runs of elements are the blocks of the first, then those of the second. */
  lemma {:induction false} FlatMapAppend<T, U>(a: seq<T>, b: seq<T>, f: T -> seq<U>)
    ensures FlatMap(a + b, f) == FlatMap(a, f) + FlatMap(b, f)
    decreases |a|
  {
    if |a| == 0 {
      assert a + b == b;
    } else {
      assert (a + b)[0] == a[0];
      assert (a + b)[1..] == a[1..] + b;
      FlatMapAppend(a[1..], b, f);
    }
  }

  /**
   * Element `i`'s block sits, whole, between the blocks of the elements
   * before it and those of the elements after it.
   */
  lemma FlatMapAt<T, U>(xs: seq<T>, f: T -> seq<U>, i: int)
    requires 0 <= i < |xs|
    ensures FlatMap(xs, f) == FlatMap(xs[..i], f) + f(xs[i]) + FlatMap(xs[i + 1..], f)
  {
    assert xs == xs[..i] + ([xs[i]] + xs[i + 1..]);
    FlatMapAppend(xs[..i], [xs[i]] + xs[i + 1..], f);
    FlatMapAppend([xs[i]], xs[i + 1..], f);
    FlatMapOne(xs[i], f);
  }

  /** An element of a part laid into a sequence at offset `k`. */
  lemma PartAt<T>(r: seq<T>, k: nat, part: seq<T>, j: nat)
    requires k + |part| <= |r| && r[k..k + |part|] == part && j < |part|
    ensures r[k + j] == part[j]
  {
    assert r[k..k + |part|][j] == part[j];
  }

  function CountOf<T(==)>(xs: seq<T>, x: T): nat
    decreases |xs|
  {
    if |xs| == 0 then 0 else (if xs[0] == x then 1 else 0) + CountOf(xs[1..], x)
  }

  /** Counting is additive over concatenation. */
  lemma {:induction false} CountOfAppend<T>(a: seq<T>, b: seq<T>, x: T)
    ensures CountOf(a + b, x) == CountOf(a, x) + CountOf(b, x)
    decreases |a|
  {
    if |a| == 0 {
      assert a + b == b;
    } else {
      assert (a + b)[0] == a[0];
      assert (a + b)[1..] == a[1..] + b;
      CountOfAppend(a[1..], b, x);
    }
  }

  /** A sequence none of whose elements is `x` holds no `x`. */
  lemma {:induction false} CountOfAbsent<T>(xs: seq<T>, x: T)
    requires forall i | 0 <= i < |xs| :: xs[i] != x
    ensures CountOf(xs, x) == 0
    decreases |xs|
  {
    if |xs| > 0 {
      CountOfAbsent(xs[1..], x);
    }
  }

  function Min(a: int, b: int): int {
    if a < b then a else b
  }
}
