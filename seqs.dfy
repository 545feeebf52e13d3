/**
 * Sequence helpers: Python's `sorted(xs, key=...)` for string keys, as an
 * insertion sort, and the first element satisfying a test, as `next` over a
 * generator returns it.
 */
module Seqs {

  import opened Text

  /** The position of the first element passing `p`, or the length of the sequence. */
  function FirstWhere<T>(s: seq<T>, p: T -> bool): (i: nat)
    ensures i <= |s|
    ensures forall j :: 0 <= j < i ==> !p(s[j])
    ensures i < |s| ==> p(s[i])
  {
    if s == [] then 0
    else if p(s[0]) then 0
    else
      var i := FirstWhere(s[1..], p);
      assert forall j :: 1 <= j < i + 1 ==> s[j] == s[1..][j - 1];
      i + 1
  }

  /** No element occurs twice. */
  predicate Distinct<T(==)>(s: seq<T>)
  {
    forall i, j :: 0 <= i < j < |s| ==> s[i] != s[j]
  }

  /** Two runs without repeats, one inside a set and the other outside it, join without repeats. */
  lemma DistinctJoin<T>(a: seq<T>, b: seq<T>, inside: set<T>)
    requires Distinct(a) && Distinct(b)
    requires forall i :: 0 <= i < |a| ==> a[i] !in inside
    requires forall j :: 0 <= j < |b| ==> b[j] in inside
    ensures Distinct(a + b)
  {
    forall i, j | 0 <= i < j < |a + b| ensures (a + b)[i] != (a + b)[j] {
      if j < |a| {
        assert (a + b)[i] == a[i] && (a + b)[j] == a[j];
      } else if i >= |a| {
        assert (a + b)[i] == b[i - |a|] && (a + b)[j] == b[j - |a|];
      } else {
        assert (a + b)[i] == a[i] && (a + b)[j] == b[j - |a|];
      }
    }
  }

  predicate SortedBy<T>(s: seq<T>, key: T -> string)
  {
    forall i, j :: 0 <= i < j < |s| ==> StrLe(key(s[i]), key(s[j]))
  }

  /** `x` placed after the elements whose key is at most its own, before the first greater one. */
  function InsertBy<T>(x: T, s: seq<T>, key: T -> string): (r: seq<T>)
    requires SortedBy(s, key)
    ensures SortedBy(r, key)
    ensures multiset(r) == multiset(s) + multiset{x}
  {
    if s == [] then [x]
    else if StrLe(key(s[0]), key(x)) then
      var rest := InsertBy(x, s[1..], key);
      assert s == [s[0]] + s[1..];
      HeadStaysFirst(s[0], s[1..], x, rest, key);
      [s[0]] + rest
    else
      StrLeTotal(key(x), key(s[0]));
      FirstOfAll(x, s, key);
      [x] + s
  }

  /** A key at most the first of a sorted sequence is at most all of them. */
  lemma FirstOfAll<T>(x: T, s: seq<T>, key: T -> string)
    requires SortedBy(s, key) && s != [] && StrLe(key(x), key(s[0]))
    ensures SortedBy([x] + s, key)
  {
    forall j | 0 <= j < |s| ensures StrLe(key(x), key(s[j])) {
      if j > 0 {
        StrLeTrans(key(x), key(s[0]), key(s[j]));
      }
    }
    assert forall j :: 1 <= j < |s| + 1 ==> ([x] + s)[j] == s[j - 1];
  }

  /** The head of a sorted sequence stays first when an element not below it joins the tail. */
  lemma HeadStaysFirst<T>(h: T, t: seq<T>, x: T, rest: seq<T>, key: T -> string)
    requires SortedBy([h] + t, key) && StrLe(key(h), key(x))
    requires SortedBy(rest, key) && multiset(rest) == multiset(t) + multiset{x}
    ensures SortedBy([h] + rest, key)
  {
    forall k | 0 <= k < |rest| ensures StrLe(key(h), key(rest[k])) {
      assert rest[k] in multiset(rest);
      if rest[k] != x {
        assert rest[k] in t;
        var j :| 0 <= j < |t| && t[j] == rest[k];
        assert ([h] + t)[0] == h && ([h] + t)[j + 1] == t[j];
      }
    }
    assert forall j :: 1 <= j < |rest| + 1 ==> ([h] + rest)[j] == rest[j - 1];
  }

  /** The elements of `s` in key order, each as often as in `s`. */
  function SortBy<T>(s: seq<T>, key: T -> string): (r: seq<T>)
    ensures SortedBy(r, key)
    ensures multiset(r) == multiset(s)
  {
    if s == [] then []
    else
      assert s == s[..|s| - 1] + [s[|s| - 1]];
      InsertBy(s[|s| - 1], SortBy(s[..|s| - 1], key), key)
  }

  /** Every element of one permutation is an element of the other. */
  lemma SameElements<T>(a: seq<T>, b: seq<T>)
    requires multiset(a) == multiset(b)
    ensures forall k :: 0 <= k < |a| ==> a[k] in b
    ensures forall k :: 0 <= k < |b| ==> b[k] in a
    ensures |a| == |b|
  {
    assert |a| == |multiset(a)| == |multiset(b)| == |b|;
    forall k | 0 <= k < |a| ensures a[k] in b {
      assert a[k] in multiset(b);
    }
    forall k | 0 <= k < |b| ensures b[k] in a {
      assert b[k] in multiset(a);
    }
  }
}
