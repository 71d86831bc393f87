/**
 * The array helpers of lodash that the data service relies on:
 * `_.uniq`, `_.intersection` and `_.filter` by membership.
 */
module JsArray {

  /**
   * No element occurs twice: the elements at any two positions differ.
   * The comparison is the separate predicate `Differ`, so the verifier
   * compares two positions only where a proof names them.
   */
  predicate Distinct<T(==)>(s: seq<T>) {
    forall i, j :: 0 <= i < j < |s| ==> Differ(s, i, j)
  }

  /** The elements at positions `i` and `j` of `s` differ. */
  predicate Differ<T(==)>(s: seq<T>, i: int, j: int) {
    0 <= i < |s| && 0 <= j < |s| && s[i] != s[j]
  }

  /** Appending an element that is not yet there keeps a list free of duplicates. */
  lemma DistinctPush<T>(s: seq<T>, x: T)
    requires Distinct(s) && x !in s
    ensures Distinct(s + [x])
  {
    var t := s + [x];
    forall i, j | 0 <= i < j < |t|
      ensures Differ(t, i, j)
    {
      if j < |s| {
        assert Differ(s, i, j);
      } else {
        assert t[i] == s[i] && t[j] == x;
      }
    }
  }

  /** Every prefix of a list without duplicates is without duplicates. */
  lemma DistinctPrefix<T>(s: seq<T>, n: nat)
    requires Distinct(s) && n <= |s|
    ensures Distinct(s[..n])
  {
    forall i, j | 0 <= i < j < n
      ensures Differ(s[..n], i, j)
    {
      assert Differ(s, i, j);
    }
  }

  /** In a list without duplicates, no element occurs before its own position. */
  lemma DistinctBefore<T>(s: seq<T>, i: nat)
    requires Distinct(s) && i < |s|
    ensures s[i] !in s[..i]
  {
    forall k | 0 <= k < i
      ensures s[..i][k] != s[i]
    {
      assert Differ(s, k, i);
    }
  }

  /**
   * `_.uniq(s)`: the first occurrence of every element of `s`, in order.
   */
  function Uniq<T(==,!new)>(s: seq<T>): (r: seq<T>)
    ensures Distinct(r)
    ensures forall x :: x in r <==> x in s
    decreases |s|
  {
    if s == [] then []
    else
      var front := Uniq(s[..|s| - 1]);
      var x := s[|s| - 1];
      if x in front then front else DistinctPush(front, x); front + [x]
  }

  /** `_.uniq` leaves a list without duplicates as it is. */
  lemma {:induction false} UniqOfDistinct<T(!new)>(s: seq<T>)
    requires Distinct(s)
    ensures Uniq(s) == s
    decreases |s|
  {
    if s != [] {
      DistinctPrefix(s, |s| - 1);
      DistinctBefore(s, |s| - 1);
      UniqOfDistinct(s[..|s| - 1]);
      assert s[..|s| - 1] + [s[|s| - 1]] == s;
    }
  }

  /** `_.uniq` after a push: the element is appended unless already present. */
  lemma UniqPush<T(!new)>(s: seq<T>, x: T)
    ensures Uniq(s + [x]) == if x in s then Uniq(s) else Uniq(s) + [x]
  {
    assert (s + [x])[..|s + [x]| - 1] == s;
  }

  /**
   * Pushing an element that is already present and then calling `_.uniq`
   * gives back the original list.
   */
  lemma UniqAfterPushPresent<T(!new)>(s: seq<T>, x: T)
    requires Distinct(s) && x in s
    ensures Uniq(s + [x]) == s
  {
    assert (s + [x])[..|s + [x]| - 1] == s;
    UniqOfDistinct(s);
  }

  /**
   * Pushing an element that is absent and then calling `_.uniq` appends it.
   */
  lemma UniqAfterPushAbsent<T(!new)>(s: seq<T>, x: T)
    requires Distinct(s) && x !in s
    ensures Uniq(s + [x]) == s + [x]
  {
    assert (s + [x])[..|s + [x]| - 1] == s;
    UniqOfDistinct(s);
  }

  /** In a list without duplicates, every member occurs exactly once. */
  lemma {:induction false} DistinctOnce<T(!new)>(s: seq<T>, x: T)
    requires Distinct(s) && x in s
    ensures multiset(s)[x] == 1
    decreases |s|
  {
    var front := s[..|s| - 1];
    var last := s[|s| - 1];
    assert s == front + [last];
    DistinctBefore(s, |s| - 1);
    if last == x {
      assert x !in front;
    } else {
      assert x in front;
      DistinctPrefix(s, |s| - 1);
      DistinctOnce(front, x);
    }
  }

  /** The elements of `a` that are members of `b`, in the order of `a`. */
  function KeepMembers<T(==,!new)>(a: seq<T>, b: seq<T>): (r: seq<T>)
    ensures forall x :: x in r <==> x in a && x in b
    decreases |a|
  {
    if a == [] then []
    else if a[0] in b then [a[0]] + KeepMembers(a[1..], b)
    else KeepMembers(a[1..], b)
  }

  /**
   * `_.intersection(a, b)`: the distinct values of `a` that also occur in
   * `b`, in the order of their first occurrence in `a`.
   */
  function Intersection<T(==,!new)>(a: seq<T>, b: seq<T>): (r: seq<T>)
    ensures Distinct(r)
    ensures forall x :: x in r <==> x in a && x in b
  {
    Uniq(KeepMembers(a, b))
  }
}
