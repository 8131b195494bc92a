/** Sequence operations the JavaScript code gets from `Array.prototype`. */
module Seqs {

  /** `Array.prototype.filter`: the elements satisfying `p`, in their original order. */
  function Keep<T(!new)>(s: seq<T>, p: T -> bool): (r: seq<T>)
    ensures |r| <= |s|
    ensures forall x :: x in r <==> x in s && p(x)
  {
    if s == [] then []
    else
      assert forall x :: x in s <==> x == s[0] || x in s[1..];
      (if p(s[0]) then [s[0]] else []) + Keep(s[1..], p)
  }

  /** `Array.prototype.map`. */
  function Map<T, U>(s: seq<T>, f: T -> U): (r: seq<U>)
  {
    seq(|s|, i requires 0 <= i < |s| => f(s[i]))
  }

  /** `a` is obtained from `b` by deleting elements: an order-preserving subsequence. */
  predicate IsSubsequence<T(==)>(a: seq<T>, b: seq<T>)
    decreases |b|
  {
    if a == [] then true
    else if b == [] then false
    else (a[0] == b[0] && IsSubsequence(a[1..], b[1..])) || IsSubsequence(a, b[1..])
  }

  /** `Array.prototype.slice(start, end)`, including its treatment of negative and
      out-of-range indices. */
  function Slice<T>(s: seq<T>, start: int, end: int): (r: seq<T>)
  {
    var from := if start < 0 then Max(|s| + start, 0) else Min(start, |s|);
    var to := if end < 0 then Max(|s| + end, 0) else Min(end, |s|);
    if from < to then s[from..to] else []
  }

  function Min(a: int, b: int): int { if a <= b then a else b }

  function Max(a: int, b: int): int { if a >= b then a else b }

  lemma {:induction false} SubsequenceReflexive<T>(s: seq<T>)
    ensures IsSubsequence(s, s)
  {
    if s != [] {
      SubsequenceReflexive(s[1..]);
    }
  }

  lemma {:induction false} KeepIsSubsequence<T(!new)>(s: seq<T>, p: T -> bool)
    ensures IsSubsequence(Keep(s, p), s)
  {
    if s != [] {
      KeepIsSubsequence(s[1..], p);
      if p(s[0]) {
        assert Keep(s, p)[1..] == Keep(s[1..], p);
      } else {
        assert Keep(s, p) == Keep(s[1..], p);
      }
    }
  }

  /** Filtering distributes over concatenation: this is what "keeps the original order" means. */
  lemma {:induction false} KeepAppend<T(!new)>(a: seq<T>, b: seq<T>, p: T -> bool)
    ensures Keep(a + b, p) == Keep(a, p) + Keep(b, p)
  {
    if a != [] {
      assert (a + b)[1..] == a[1..] + b;
      KeepAppend(a[1..], b, p);
    } else {
      assert a + b == b;
    }
  }

  /** Each element replaced by the run `f` gives for it, the runs laid end to end. */
  function FlatMap<T, U>(s: seq<T>, f: T -> seq<U>): (r: seq<U>)
    ensures s == [] ==> r == []
  {
    if s == [] then [] else f(s[0]) + FlatMap(s[1..], f)
  }

  /** `FlatMap` distributes over concatenation. */
  lemma {:induction false} FlatMapAppend<T, U>(a: seq<T>, b: seq<T>, f: T -> seq<U>)
    ensures FlatMap(a + b, f) == FlatMap(a, f) + FlatMap(b, f)
  {
    if a != [] {
      assert (a + b)[0] == a[0] && (a + b)[1..] == a[1..] + b;
      FlatMapAppend(a[1..], b, f);
    } else {
      assert a + b == b;
    }
  }

  /** Two predicates that agree on the elements give the same filtered sequence. */
  lemma {:induction false} KeepCongruent<T(!new)>(s: seq<T>, p: T -> bool, q: T -> bool)
    requires forall x :: x in s ==> (p(x) <==> q(x))
    ensures Keep(s, p) == Keep(s, q)
  {
    if s != [] {
      assert forall x :: x in s[1..] ==> x in s;
      KeepCongruent(s[1..], p, q);
    }
  }

  /** Filtering with a stronger predicate keeps a subsequence of what the weaker one keeps. */
  lemma {:induction false} KeepStronger<T(!new)>(s: seq<T>, p: T -> bool, q: T -> bool)
    requires forall x :: x in s ==> (p(x) ==> q(x))
    ensures IsSubsequence(Keep(s, p), Keep(s, q))
  {
    if s != [] {
      assert forall x :: x in s[1..] ==> x in s;
      KeepStronger(s[1..], p, q);
      var kp, kq := Keep(s, p), Keep(s, q);
      if p(s[0]) {
        assert kp[0] == kq[0] && kp[1..] == Keep(s[1..], p) && kq[1..] == Keep(s[1..], q);
      } else if q(s[0]) {
        assert kp == Keep(s[1..], p) && kq[1..] == Keep(s[1..], q);
        SubsequenceOfTail(kp, kq);
      } else {
        assert kp == Keep(s[1..], p) && kq == Keep(s[1..], q);
      }
    }
  }

  lemma {:induction false} SubsequenceOfTail<T>(a: seq<T>, b: seq<T>)
    requires b != [] && IsSubsequence(a, b[1..])
    ensures IsSubsequence(a, b)
  {
  }

  /** The predicate `p` read through `f`. */
  function Through<T, U>(f: T -> U, p: U -> bool): T -> bool
  {
    x => p(f(x))
  }

  /** Mapping then filtering on the mapped value is filtering on the composed predicate, then mapping. */
  lemma {:induction false} KeepMap<T(!new), U(!new)>(s: seq<T>, f: T -> U, p: U -> bool)
    ensures Keep(Map(s, f), p) == Map(Keep(s, Through(f, p)), f)
  {
    if s != [] {
      var ms, t := Map(s, f), Through(f, p);
      assert ms[0] == f(s[0]) && ms[1..] == Map(s[1..], f);
      assert t(s[0]) == p(f(s[0]));
      KeepMap(s[1..], f, p);
      var rest := Keep(s[1..], t);
      if p(f(s[0])) {
        assert Keep(s, t) == [s[0]] + rest;
        assert Map([s[0]] + rest, f) == [f(s[0])] + Map(rest, f);
      } else {
        assert Keep(s, t) == rest;
      }
    }
  }
}
