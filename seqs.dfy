/** `Array.prototype.filter` on values, and the subsequence order it preserves. */
module Seqs {

  /**
   * `a` is an order-preserving subsequence of `b`: `a` is `b` with some
   * elements dropped. Greedy matching decides this exactly.
   */
  predicate IsSubsequence<T(==)>(a: seq<T>, b: seq<T>)
    decreases |b|
  {
    if a == [] then true
    else if b == [] then false
    else if a[0] == b[0] then IsSubsequence(a[1..], b[1..])
    else IsSubsequence(a, b[1..])
  }

  /** `s.filter(p)`: the elements of `s` that pass `p`, in their original order. */
  function Filter<T>(p: T -> bool, s: seq<T>): (r: seq<T>)
    ensures |r| <= |s|
    ensures forall i :: 0 <= i < |r| ==> p(r[i])
  {
    if s == [] then []
    else if p(s[0]) then [s[0]] + Filter(p, s[1..])
    else Filter(p, s[1..])
  }

  /** An element is kept by `filter` exactly when it is in the input and passes the test. */
  lemma {:induction false} FilterMembers<T>(p: T -> bool, s: seq<T>)
    ensures forall x :: x in Filter(p, s) <==> x in s && p(x)
  {
    if s != [] {
      FilterMembers(p, s[1..]);
      assert s == [s[0]] + s[1..];
    }
  }

  /** `filter` keeps every copy of a passing element and no copy of a failing one. */
  lemma {:induction false} FilterCount<T>(p: T -> bool, s: seq<T>)
    ensures forall x :: multiset(Filter(p, s))[x] == if p(x) then multiset(s)[x] else 0
  {
    if s != [] {
      FilterCount(p, s[1..]);
      assert s == [s[0]] + s[1..];
      assert multiset(s) == multiset{s[0]} + multiset(s[1..]);
    }
  }

  /** Two tests that agree on every element keep the same elements. */
  lemma {:induction false} FilterExtensional<T>(p: T -> bool, q: T -> bool, s: seq<T>)
    requires forall x :: p(x) == q(x)
    ensures Filter(p, s) == Filter(q, s)
  {
    if s != [] {
      FilterExtensional(p, q, s[1..]);
    }
  }

  /** The result of `filter` is a subsequence of its input. */
  lemma {:induction false} FilterIsSubsequence<T>(p: T -> bool, s: seq<T>)
    ensures IsSubsequence(Filter(p, s), s)
  {
    if s != [] {
      FilterIsSubsequence(p, s[1..]);
      var rest := Filter(p, s[1..]);
      if !p(s[0]) && rest != [] {
        assert rest[0] != s[0];
      }
    }
  }

  /** `filter` keeps everything exactly when everything passes. */
  lemma {:induction false} FilterKeepsAll<T>(p: T -> bool, s: seq<T>)
    ensures Filter(p, s) == s <==> forall i :: 0 <= i < |s| ==> p(s[i])
  {
    if s != [] {
      FilterKeepsAll(p, s[1..]);
      if !p(s[0]) {
        assert |Filter(p, s)| < |s|;
      } else if Filter(p, s) == s {
        assert Filter(p, s[1..]) == s[1..];
        assert forall i :: 1 <= i < |s| ==> s[i] == s[1..][i - 1];
      } else {
        assert Filter(p, s[1..]) != s[1..];
      }
    }
  }

  /** `filter` keeps nothing exactly when nothing passes. */
  lemma {:induction false} FilterEmptyIff<T>(p: T -> bool, s: seq<T>)
    ensures Filter(p, s) == [] <==> forall i :: 0 <= i < |s| ==> !p(s[i])
  {
    if s != [] {
      FilterEmptyIff(p, s[1..]);
      assert forall i :: 1 <= i < |s| ==> s[i] == s[1..][i - 1];
    }
  }

  /** Filtering twice with the same test is filtering once. */
  lemma FilterIdempotent<T>(p: T -> bool, s: seq<T>)
    ensures Filter(p, Filter(p, s)) == Filter(p, s)
  {
    FilterKeepsAll(p, Filter(p, s));
  }

  /** Filtering with a stronger test keeps a subsequence of what the weaker test keeps. */
  lemma {:induction false} FilterNarrowing<T>(strong: T -> bool, weak: T -> bool, s: seq<T>)
    requires forall x :: strong(x) ==> weak(x)
    ensures IsSubsequence(Filter(strong, s), Filter(weak, s))
  {
    if s != [] {
      FilterNarrowing(strong, weak, s[1..]);
      var rest := Filter(strong, s[1..]);
      if weak(s[0]) && !strong(s[0]) && rest != [] {
        assert rest[0] != s[0];
      }
    }
  }

  /** Removing the element at one index leaves a subsequence one shorter. */
  lemma {:induction false} RemoveAtIsSubsequence<T>(s: seq<T>, i: nat)
    requires i < |s|
    ensures IsSubsequence(s[..i] + s[i + 1..], s)
  {
    if i == 0 {
      SubsequenceOfTail(s[1..], s[0]);
      assert s[..i] + s[i + 1..] == s[1..];
      assert [s[0]] + s[1..] == s;
    } else {
      RemoveAtIsSubsequence(s[1..], i - 1);
      var t := s[1..][..i - 1] + s[1..][i..];
      assert s[..i] + s[i + 1..] == [s[0]] + t;
      assert ([s[0]] + t)[1..] == t;
    }
  }

  /** Every sequence is a subsequence of itself with one element put in front. */
  lemma {:induction false} SubsequenceOfTail<T>(s: seq<T>, x: T)
    ensures IsSubsequence(s, [x] + s)
    decreases |s|
  {
    assert ([x] + s)[1..] == s;
    if s != [] {
      if s[0] == x {
        SubsequenceOfTail(s[1..], s[0]);
        assert [s[0]] + s[1..] == s;
      } else {
        SubsequenceReflexive(s);
      }
    }
  }

  lemma {:induction false} SubsequenceReflexive<T>(s: seq<T>)
    ensures IsSubsequence(s, s)
    decreases |s|
  {
    if s != [] {
      SubsequenceReflexive(s[1..]);
    }
  }
}
