/** Generic sequence operations that the screens use on their state slices:
    JavaScript's `Array.prototype.filter` and `Array.prototype.find`, and the
    "order-preserving subsequence" relation their results stand in. */
module Seqs {

  datatype Option<+T> = None | Some(value: T)

  /** `b` contains the elements of `a`, in the same order, possibly with others in between. */
  predicate IsSubsequence<T(==)>(a: seq<T>, b: seq<T>)
    decreases |b|
  {
    if a == [] then true
    else if b == [] then false
    else (a[0] == b[0] && IsSubsequence(a[1..], b[1..])) || IsSubsequence(a, b[1..])
  }

  /** `s.filter(p)`: the elements of `s` that satisfy `p`, in their original order. */
  function Filter<T(==)>(p: T -> bool, s: seq<T>): (r: seq<T>)
    ensures |r| <= |s|
    ensures forall i :: 0 <= i < |r| ==> r[i] in s && p(r[i])
    ensures forall i :: 0 <= i < |s| && p(s[i]) ==> s[i] in r
  {
    if s == [] then []
    else if p(s[0]) then [s[0]] + Filter(p, s[1..])
    else Filter(p, s[1..])
  }

  lemma {:induction false} FilterIsSubsequence<T>(p: T -> bool, s: seq<T>)
    ensures IsSubsequence(Filter(p, s), s)
  {
    if s != [] {
      FilterIsSubsequence(p, s[1..]);
      if !p(s[0]) {
        SubsequenceOfTail(Filter(p, s[1..]), s);
      }
    }
  }

  /** Dropping the head of the larger sequence keeps the relation in one direction. */
  lemma {:induction false} SubsequenceOfTail<T>(a: seq<T>, b: seq<T>)
    requires b != [] && IsSubsequence(a, b[1..])
    ensures IsSubsequence(a, b)
  {
  }

  /** Filtering keeps every occurrence of a kept value and no occurrence of a dropped one. */
  lemma {:induction false} FilterMultiplicity<T>(p: T -> bool, s: seq<T>)
    ensures forall x :: multiset(Filter(p, s))[x] == if p(x) then multiset(s)[x] else 0
  {
    if s != [] {
      FilterMultiplicity(p, s[1..]);
      assert s == [s[0]] + s[1..];
    }
  }

  /** When every element passes, filtering is the identity. */
  lemma {:induction false} FilterKeepsAll<T>(p: T -> bool, s: seq<T>)
    requires forall i :: 0 <= i < |s| ==> p(s[i])
    ensures Filter(p, s) == s
  {
    if s != [] {
      FilterKeepsAll(p, s[1..]);
    }
  }

  /** When no element passes, filtering gives the empty sequence. */
  lemma FilterKeepsNone<T>(p: T -> bool, s: seq<T>)
    requires forall i :: 0 <= i < |s| ==> !p(s[i])
    ensures Filter(p, s) == []
  {
  }

  lemma {:induction false} FilterAppend<T>(p: T -> bool, a: seq<T>, b: seq<T>)
    ensures Filter(p, a + b) == Filter(p, a) + Filter(p, b)
  {
    if a != [] {
      assert (a + b)[1..] == a[1..] + b;
      FilterAppend(p, a[1..], b);
    } else {
      assert a + b == b;
    }
  }

  /** A stronger predicate keeps a subsequence of what a weaker one keeps. */
  lemma {:induction false} FilterStronger<T>(p: T -> bool, q: T -> bool, s: seq<T>)
    requires forall x :: p(x) ==> q(x)
    ensures IsSubsequence(Filter(p, s), Filter(q, s))
  {
    if s != [] {
      FilterStronger(p, q, s[1..]);
      if !p(s[0]) && q(s[0]) {
        SubsequenceOfTail(Filter(p, s[1..]), Filter(q, s));
      }
    }
  }

  /** Index of the first element satisfying `p`, or `|s|` when there is none. */
  function IndexOfFirst<T>(p: T -> bool, s: seq<T>): (k: nat)
    ensures k <= |s|
    ensures forall j :: 0 <= j < k ==> !p(s[j])
    ensures k < |s| ==> p(s[k])
  {
    if s == [] then 0
    else if p(s[0]) then 0
    else 1 + IndexOfFirst(p, s[1..])
  }

  /** `s.find(p)`: the first element satisfying `p`, or `undefined` (here `None`). */
  function Find<T>(p: T -> bool, s: seq<T>): (r: Option<T>)
    ensures r.None? <==> forall i :: 0 <= i < |s| ==> !p(s[i])
    ensures r.Some? ==> exists k :: 0 <= k < |s| && r.value == s[k] && p(s[k]) &&
                                    forall j :: 0 <= j < k ==> !p(s[j])
  {
    var k := IndexOfFirst(p, s);
    if k < |s| then Some(s[k]) else None
  }
}
