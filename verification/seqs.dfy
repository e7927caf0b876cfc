/** Sequence operations shared by the reducers and the course generator:
    `Array.prototype.filter`, `Array.prototype.slice(0, end)` and the
    order-preserving subsequence relation they are specified against. */
module Seqs {

  /** `a` can be obtained from `b` by deleting elements, keeping the order of the rest. */
  predicate IsSubsequence<T(==)>(a: seq<T>, b: seq<T>)
    decreases |b|
  {
    && |a| <= |b|
    && (|a| == 0
        || (a[0] == b[0] && IsSubsequence(a[1..], b[1..]))
        || IsSubsequence(a, b[1..]))
  }

  lemma {:induction false} SubsequenceMembers<T>(a: seq<T>, b: seq<T>)
    requires IsSubsequence(a, b)
    ensures forall x :: x in a ==> x in b
    decreases |b|
  {
    if |a| == 0 {
    } else if a[0] == b[0] && IsSubsequence(a[1..], b[1..]) {
      SubsequenceMembers(a[1..], b[1..]);
      forall x | x in a
        ensures x in b
      {
        if x != a[0] {
          assert x in a[1..];
        }
      }
    } else {
      SubsequenceMembers(a, b[1..]);
    }
  }

  lemma {:induction false} SubsequenceReflexive<T>(a: seq<T>)
    ensures IsSubsequence(a, a)
    decreases |a|
  {
    if |a| > 0 {
      SubsequenceReflexive(a[1..]);
    }
  }

  /** A prefix of a subsequence of `b` is itself a subsequence of `b`. */
  lemma {:induction false} PrefixOfSubsequence<T>(a: seq<T>, b: seq<T>, k: nat)
    requires IsSubsequence(a, b)
    requires k <= |a|
    ensures IsSubsequence(a[..k], b)
    decreases |b|
  {
    if k == 0 {
    } else if a[0] == b[0] && IsSubsequence(a[1..], b[1..]) {
      PrefixOfSubsequence(a[1..], b[1..], k - 1);
      assert a[..k][1..] == a[1..][..k - 1];
    } else {
      PrefixOfSubsequence(a, b[1..], k);
    }
  }

  /** The number of positions of `s` whose element satisfies `p`. */
  function CountWhere<T>(s: seq<T>, p: T -> bool): (n: nat)
    ensures n <= |s|
    decreases |s|
  {
    if |s| == 0 then 0
    else (if p(s[|s| - 1]) then 1 else 0) + CountWhere(s[..|s| - 1], p)
  }

  /** Counting passing positions is additive over a split at the front. */
  lemma {:induction false} CountWhereCons<T>(s: seq<T>, p: T -> bool)
    requires |s| > 0
    ensures CountWhere(s, p) == (if p(s[0]) then 1 else 0) + CountWhere(s[1..], p)
    decreases |s|
  {
    if |s| > 1 {
      CountWhereCons(s[..|s| - 1], p);
      assert s[..|s| - 1][1..] == s[1..][..|s[1..]| - 1];
      assert s[..|s| - 1][0] == s[0];
    } else {
      assert s[1..] == [];
      assert s[..|s| - 1] == [];
    }
  }

  /** `Array.prototype.filter`: keeps, in order, exactly the elements satisfying `p`.
      Being a subsequence made of passing elements, as many as `s` has passing
      positions, determines the result, duplicates included. */
  function Filter<T>(s: seq<T>, p: T -> bool): (r: seq<T>)
    ensures forall i :: 0 <= i < |r| ==> p(r[i])
    ensures forall i :: 0 <= i < |r| ==> r[i] in s
    ensures forall i :: 0 <= i < |s| && p(s[i]) ==> s[i] in r
    ensures IsSubsequence(r, s)
    ensures |r| == CountWhere(s, p)
    decreases |s|
  {
    if |s| == 0 then []
    else
      CountWhereCons(s, p);
      if p(s[0]) then [s[0]] + Filter(s[1..], p)
      else Filter(s[1..], p)
  }

  /** Filtering distributes over concatenation. */
  lemma {:induction false} FilterAppend<T>(a: seq<T>, b: seq<T>, p: T -> bool)
    ensures Filter(a + b, p) == Filter(a, p) + Filter(b, p)
    decreases |a|
  {
    if |a| == 0 {
      assert a + b == b;
    } else {
      assert (a + b)[1..] == a[1..] + b;
      FilterAppend(a[1..], b, p);
    }
  }

  /** Filtering keeps a sequence whole exactly when every element passes. */
  lemma {:induction false} FilterAllPass<T>(s: seq<T>, p: T -> bool)
    requires forall i :: 0 <= i < |s| ==> p(s[i])
    ensures Filter(s, p) == s
    decreases |s|
  {
    if |s| > 0 {
      FilterAllPass(s[1..], p);
    }
  }

  /** The index at which `Array.prototype.slice(0, end)` stops, for an integer `end`:
      a negative `end` counts back from the length, and the result is clamped to the sequence. */
  function SliceEnd(len: nat, end: int): (e: nat)
    ensures e <= len
    ensures 0 <= end ==> e <= end
    ensures 0 <= end <= len ==> e == end
    ensures end < 0 && -end <= len ==> e == len + end
    ensures end > len ==> e == len
    ensures end < 0 && -end > len ==> e == 0
  {
    if end < 0 then (if len + end < 0 then 0 else len + end)
    else if end > len then len
    else end
  }

  /** `s.slice(0, end)`. */
  function SliceTo<T>(s: seq<T>, end: int): (r: seq<T>)
    ensures r == s[..SliceEnd(|s|, end)]
    ensures 0 <= end ==> |r| <= end
    ensures IsSubsequence(r, s)
  {
    SubsequenceReflexive(s);
    PrefixOfSubsequence(s, s, SliceEnd(|s|, end));
    s[..SliceEnd(|s|, end)]
  }
}
