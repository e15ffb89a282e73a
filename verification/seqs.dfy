/** `Array.prototype.filter` on sequences and the order-preserving
    subsequence relation it produces; and a left fold that threads a state
    through a sequence of steps, collecting one output per step. */
module Seqs {

  /** The elements of `s` that satisfy `p`, in their order in `s`. */
  function Filter<T(!new)>(s: seq<T>, p: T -> bool): (r: seq<T>)
    ensures |r| <= |s|
    ensures forall x :: x in r <==> x in s && p(x)
    decreases |s|
  {
    if s == [] then []
    else (if p(s[0]) then [s[0]] else []) + Filter(s[1..], p)
  }

  /** `r` can be obtained from `s` by deleting elements. */
  predicate IsSubsequence<T(==)>(r: seq<T>, s: seq<T>)
    decreases |s|
  {
    if r == [] then true
    else if s == [] then false
    else (r[0] == s[0] && IsSubsequence(r[1..], s[1..])) || IsSubsequence(r, s[1..])
  }

  lemma {:induction false} FilterIsSubsequence<T(!new)>(s: seq<T>, p: T -> bool)
    ensures IsSubsequence(Filter(s, p), s)
    decreases |s|
  {
    if s != [] {
      FilterIsSubsequence(s[1..], p);
      var rest := Filter(s[1..], p);
      if p(s[0]) {
        assert Filter(s, p) == [s[0]] + rest;
        assert ([s[0]] + rest)[1..] == rest;
      } else {
        assert Filter(s, p) == rest;
        if rest != [] {
          assert IsSubsequence(rest, s[1..]);
        }
      }
    }
  }

  /** Filtering keeps everything exactly when every element passes. */
  lemma {:induction false} FilterKeepsAll<T(!new)>(s: seq<T>, p: T -> bool)
    ensures Filter(s, p) == s <==> forall i :: 0 <= i < |s| ==> p(s[i])
    ensures |Filter(s, p)| == |s| <==> forall i :: 0 <= i < |s| ==> p(s[i])
    decreases |s|
  {
    if s != [] {
      FilterKeepsAll(s[1..], p);
      assert forall i :: 1 <= i < |s| ==> s[i] == s[1..][i - 1];
      if p(s[0]) {
        assert Filter(s, p) == [s[0]] + Filter(s[1..], p);
        if Filter(s[1..], p) == s[1..] {
          assert [s[0]] + s[1..] == s;
        }
        if forall i :: 0 <= i < |s| ==> p(s[i]) {
          assert forall i :: 0 <= i < |s[1..]| ==> p(s[1..][i]);
        }
      }
    }
  }

  /** Two successive filters are one filter by the conjunction. */
  lemma {:induction false} FilterFilter<T(!new)>(s: seq<T>, p: T -> bool, q: T -> bool, both: T -> bool)
    requires forall x :: both(x) == (p(x) && q(x))
    ensures Filter(Filter(s, p), q) == Filter(s, both)
    decreases |s|
  {
    if s != [] {
      FilterFilter(s[1..], p, q, both);
      var head := if p(s[0]) then [s[0]] else [];
      assert Filter(s, p) == head + Filter(s[1..], p);
      FilterAppend(head, Filter(s[1..], p), q);
    }
  }

  lemma {:induction false} FilterAppend<T(!new)>(a: seq<T>, b: seq<T>, p: T -> bool)
    ensures Filter(a + b, p) == Filter(a, p) + Filter(b, p)
    decreases |a|
  {
    if a != [] {
      assert (a + b)[1..] == a[1..] + b;
      FilterAppend(a[1..], b, p);
    } else {
      assert a + b == b;
    }
  }

  /** Filtering preserves the multiplicity of every element that passes and
      drops every element that does not. */
  lemma {:induction false} FilterMultiset<T(!new)>(s: seq<T>, p: T -> bool, x: T)
    ensures multiset(Filter(s, p))[x] == if p(x) then multiset(s)[x] else 0
    decreases |s|
  {
    if s != [] {
      FilterMultiset(s[1..], p, x);
      assert s == [s[0]] + s[1..];
    }
  }

  /** Filters by pointwise-equal predicates agree. */
  lemma {:induction false} FilterExt<T(!new)>(s: seq<T>, p: T -> bool, q: T -> bool)
    requires forall x :: p(x) == q(x)
    ensures Filter(s, p) == Filter(s, q)
    decreases |s|
  {
    if s != [] {
      FilterExt(s[1..], p, q);
    }
  }

  /** Run `step` on each element of `xs` in order, threading the state and
      collecting one output per element. */
  function Thread<S, X, Y>(step: (S, X) -> (S, Y), s: S, xs: seq<X>): (r: (S, seq<Y>))
    ensures |r.1| == |xs|
    decreases |xs|
  {
    if xs == [] then (s, [])
    else
      var prior := Thread(step, s, xs[..|xs| - 1]);
      var last := step(prior.0, xs[|xs| - 1]);
      (last.0, prior.1 + [last.1])
  }

  /** Threading through a concatenation threads through the first part and
      then, from the state it leaves, through the rest. */
  lemma {:induction false} ThreadSplit<S, X, Y>(step: (S, X) -> (S, Y), s: S, xs: seq<X>, k: nat)
    requires k <= |xs|
    ensures var first := Thread(step, s, xs[..k]);
            var rest := Thread(step, first.0, xs[k..]);
            Thread(step, s, xs) == (rest.0, first.1 + rest.1)
    decreases |xs|
  {
    var first := Thread(step, s, xs[..k]);
    if k < |xs| {
      var init, x := xs[..|xs| - 1], xs[|xs| - 1];
      ThreadSplit(step, s, init, k);
      assert init[..k] == xs[..k];
      var tail := init[k..];
      assert xs[k..] == tail + [x];
      assert (tail + [x])[..|tail|] == tail;
      var restInit := Thread(step, first.0, tail);
      var d := step(restInit.0, x);
      assert Thread(step, first.0, xs[k..]) == (d.0, restInit.1 + [d.1]);
      assert (first.1 + restInit.1) + [d.1] == first.1 + (restInit.1 + [d.1]);
    } else {
      assert xs[..k] == xs;
      assert xs[k..] == [];
      assert first.1 + [] == first.1;
    }
  }

  /** A prefix one element longer is the shorter prefix and that element. */
  lemma PrefixStep<T>(s: seq<T>, i: nat)
    requires i < |s|
    ensures s[..i + 1] == s[..i] + [s[i]]
  {
  }
}
