/** Table filters over sequences: keep the rows that satisfy a test, in
    their original order, as a boolean-mask selection on a data frame does. */
module Seqs {

  /** The elements of `s` satisfying `p`, in order. */
  function Filter<T(==)>(s: seq<T>, p: T -> bool): (r: seq<T>)
    ensures |r| <= |s|
    ensures forall i :: 0 <= i < |r| ==> r[i] in s && p(r[i])
    ensures forall i :: 0 <= i < |s| && p(s[i]) ==> s[i] in r
  {
    if s == [] then []
    else (if p(s[0]) then [s[0]] else []) + Filter(s[1..], p)
  }

  /** `a` can be obtained from `b` by deleting elements. */
  predicate IsSubsequence<T(==)>(a: seq<T>, b: seq<T>)
    decreases |b|
  {
    if a == [] then true
    else if b == [] then false
    else if a[0] == b[0] then IsSubsequence(a[1..], b[1..])
    else IsSubsequence(a, b[1..])
  }

  /** Filtering only deletes elements: what remains keeps its relative order. */
  lemma {:induction false} FilterIsSubsequence<T>(s: seq<T>, p: T -> bool)
    ensures IsSubsequence(Filter(s, p), s)
  {
    if s != [] {
      FilterIsSubsequence(s[1..], p);
      var rest := Filter(s[1..], p);
      if p(s[0]) {
        assert Filter(s, p)[1..] == rest;
      } else {
        assert Filter(s, p) == rest;
        if rest != [] {
          assert p(rest[0]) && rest[0] != s[0];
        }
      }
    }
  }

  /** Filtering a concatenation filters each part. */
  lemma {:induction false} FilterConcat<T>(a: seq<T>, b: seq<T>, p: T -> bool)
    ensures Filter(a + b, p) == Filter(a, p) + Filter(b, p)
  {
    if a != [] {
      assert (a + b)[1..] == a[1..] + b;
      FilterConcat(a[1..], b, p);
    } else {
      assert a + b == b;
    }
  }

  /** Filtering by a weaker test first changes nothing about a later,
      stronger filter. */
  lemma {:induction false} FilterFilter<T>(s: seq<T>, p: T -> bool, q: T -> bool)
    requires forall x :: q(x) ==> p(x)
    ensures Filter(Filter(s, p), q) == Filter(s, q)
  {
    if s != [] {
      FilterFilter(s[1..], p, q);
      FilterConcat(if p(s[0]) then [s[0]] else [], Filter(s[1..], p), q);
      if p(s[0]) {
        assert Filter([s[0]], q) == (if q(s[0]) then [s[0]] else []) + Filter([s[0]][1..], q);
      }
    }
  }

  /** A filter that no element passes is empty. */
  lemma {:induction false} FilterNone<T>(s: seq<T>, p: T -> bool)
    requires forall i :: 0 <= i < |s| ==> !p(s[i])
    ensures Filter(s, p) == []
  {
    if s != [] {
      assert forall i :: 0 <= i < |s[1..]| ==> s[1..][i] == s[i + 1];
      FilterNone(s[1..], p);
    }
  }

  /** The first element of a filter is the earliest element that passes. */
  lemma {:induction false} FilterHead<T>(s: seq<T>, p: T -> bool)
    ensures forall i :: (0 <= i < |s| && p(s[i]) && (forall j :: 0 <= j < i ==> !p(s[j])))
                        ==> Filter(s, p) != [] && Filter(s, p)[0] == s[i]
  {
    if s != [] && !p(s[0]) {
      FilterHead(s[1..], p);
      assert Filter(s, p) == Filter(s[1..], p);
      forall i | 0 < i < |s| && p(s[i]) && (forall j :: 0 <= j < i ==> !p(s[j]))
        ensures Filter(s, p) != [] && Filter(s, p)[0] == s[i]
      {
        assert s[1..][i - 1] == s[i];
        assert forall j :: 0 <= j < i - 1 ==> s[1..][j] == s[j + 1];
      }
    }
  }

  /** When exactly one element passes, the filter selects just that one. */
  lemma {:induction false} FilterSingle<T>(s: seq<T>, p: T -> bool, k: nat)
    requires k < |s| && p(s[k])
    requires forall j :: 0 <= j < |s| && j != k ==> !p(s[j])
    ensures Filter(s, p) == [s[k]]
  {
    if k == 0 {
      assert forall j :: 0 <= j < |s[1..]| ==> s[1..][j] == s[j + 1];
      FilterNone(s[1..], p);
    } else {
      assert forall j :: 0 <= j < |s[1..]| && j != k - 1 ==> s[1..][j] == s[j + 1];
      FilterSingle(s[1..], p, k - 1);
    }
  }
}
