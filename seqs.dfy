/**
 * Sequence operations behind `Array.prototype.filter` and
 * `Array.from(new Set(...))`, with the facts the components rely on.
 */
module Seqs {

  // ---------------------------------------------------------------------
  // Subsequences

  /** a can be obtained from b by deleting elements, keeping the order of the rest. */
  predicate IsSubsequence<T(==)>(a: seq<T>, b: seq<T>)
    decreases |b|
  {
    a == [] || (b != [] && ((a[0] == b[0] && IsSubsequence(a[1..], b[1..])) || IsSubsequence(a, b[1..])))
  }

  lemma SubsequenceUnderCons<T>(a: seq<T>, x: T, b: seq<T>)
    requires IsSubsequence(a, b)
    ensures IsSubsequence(a, [x] + b)
  {
    assert ([x] + b)[1..] == b;
  }

  // ---------------------------------------------------------------------
  // Filtering (`s.filter(p)`)

  /** The elements of s that satisfy p, in their order in s. */
  function Filter<T>(s: seq<T>, p: T -> bool): (r: seq<T>)
    ensures |r| <= |s|
    ensures forall i :: 0 <= i < |r| ==> r[i] in s && p(r[i])
    ensures forall i :: 0 <= i < |s| && p(s[i]) ==> s[i] in r
  {
    if s == [] then [] else (if p(s[0]) then [s[0]] else []) + Filter(s[1..], p)
  }

  /** What filter keeps appears in s in the same order. */
  lemma {:induction false} FilterIsSubsequence<T>(s: seq<T>, p: T -> bool)
    ensures IsSubsequence(Filter(s, p), s)
    decreases |s|
  {
    if s != [] {
      FilterIsSubsequence(s[1..], p);
      var rest := Filter(s[1..], p);
      if p(s[0]) {
        assert Filter(s, p) == [s[0]] + rest;
        assert ([s[0]] + rest)[1..] == rest;
      } else {
        assert Filter(s, p) == rest;
        if rest != [] {
          assert IsSubsequence(rest, s[1..]);
        }
      }
    }
  }

  /** filter keeps every copy of an element that passes and no copy of one that fails. */
  lemma {:induction false} FilterMultiplicity<T>(s: seq<T>, p: T -> bool)
    ensures forall x :: multiset(Filter(s, p))[x] == if p(x) then multiset(s)[x] else 0
    decreases |s|
  {
    if s != [] {
      FilterMultiplicity(s[1..], p);
      assert s == [s[0]] + s[1..];
      assert multiset(s) == multiset([s[0]]) + multiset(s[1..]);
      assert Filter(s, p) == (if p(s[0]) then [s[0]] else []) + Filter(s[1..], p);
    }
  }

  /** A filter that rejects nothing returns its input. */
  lemma {:induction false} FilterKeepsAll<T>(s: seq<T>, p: T -> bool)
    requires forall x :: x in s ==> p(x)
    ensures Filter(s, p) == s
    decreases |s|
  {
    if s != [] {
      assert s[0] in s;
      forall x | x in s[1..] ensures p(x) {
        assert x in s;
      }
      FilterKeepsAll(s[1..], p);
      assert s == [s[0]] + s[1..];
    }
  }

  /** A filter whose predicate implies another's keeps a subsequence of what the other keeps. */
  lemma {:induction false} FilterMonotone<T>(s: seq<T>, p: T -> bool, q: T -> bool)
    requires forall x :: x in s && p(x) ==> q(x)
    ensures IsSubsequence(Filter(s, p), Filter(s, q))
    decreases |s|
  {
    if s != [] {
      forall x | x in s[1..] && p(x) ensures q(x) {
        assert x in s;
      }
      FilterMonotone(s[1..], p, q);
      var fp, fq := Filter(s[1..], p), Filter(s[1..], q);
      assert s[0] in s;
      if p(s[0]) {
        assert Filter(s, p) == [s[0]] + fp && Filter(s, q) == [s[0]] + fq;
        assert ([s[0]] + fp)[1..] == fp && ([s[0]] + fq)[1..] == fq;
      } else if q(s[0]) {
        assert Filter(s, p) == fp && Filter(s, q) == [s[0]] + fq;
        SubsequenceUnderCons(fp, s[0], fq);
      } else {
        assert Filter(s, p) == fp && Filter(s, q) == fq;
      }
    }
  }

  // ---------------------------------------------------------------------
  // Removing duplicates in first-occurrence order (`Array.from(new Set(s))`)

  predicate Distinct<T(==)>(s: seq<T>) {
    forall i, j :: 0 <= i < j < |s| ==> s[i] != s[j]
  }

  /** The position of the first occurrence of x in s. */
  function FirstIndex<T(==)>(s: seq<T>, x: T): (k: nat)
    requires x in s
    ensures k < |s| && s[k] == x
    ensures forall i :: 0 <= i < k ==> s[i] != x
  {
    if s[0] == x then 0 else 1 + FirstIndex(s[1..], x)
  }

  /**
   * The distinct elements of s, each once, in the order in which a `Set`
   * receives them: an element is added when it is first seen.
   */
  function Dedup<T(==)>(s: seq<T>): (r: seq<T>)
    ensures forall i :: 0 <= i < |r| ==> r[i] in s
    ensures forall i :: 0 <= i < |s| ==> s[i] in r
    ensures Distinct(r)
    decreases |s|
  {
    if s == [] then []
    else
      var front := s[..|s| - 1];
      var d := Dedup(front);
      assert forall i :: 0 <= i < |s| - 1 ==> s[i] == front[i];
      if s[|s| - 1] in d then d else d + [s[|s| - 1]]
  }

  /** Appending an element adds it to the de-duplication exactly when it is new. */
  lemma DedupSnoc<T>(s: seq<T>, x: T)
    ensures Dedup(s + [x]) == if x in Dedup(s) then Dedup(s) else Dedup(s) + [x]
  {
    assert (s + [x])[..|s + [x]| - 1] == s;
  }

  /** Extending s at the end leaves the first occurrences of its elements where they were. */
  lemma FirstIndexAppend<T>(s: seq<T>, y: T, x: T)
    requires x in s + [y]
    ensures FirstIndex(s + [y], x) == if x in s then FirstIndex(s, x) else |s|
  {
    var t := s + [y];
    var k := FirstIndex(t, x);
    if x in s {
      var j := FirstIndex(s, x);
      assert t[j] == x;
      assert k <= j;
      assert s[k] == x;
    } else {
      assert t[|s|] == x;
      assert forall i :: 0 <= i < |s| ==> t[i] != x;
    }
  }

  /** Dedup lists elements in the order of their first occurrences in s. */
  lemma {:induction false} DedupFirstOccurrenceOrder<T>(s: seq<T>, i: nat, j: nat)
    requires i < j < |Dedup(s)|
    ensures FirstIndex(s, Dedup(s)[i]) < FirstIndex(s, Dedup(s)[j])
    decreases |s|
  {
    var front := s[..|s| - 1];
    var y := s[|s| - 1];
    var d := Dedup(front);
    assert s == front + [y];
    var x1, x2 := Dedup(s)[i], Dedup(s)[j];
    if y in d {
      assert Dedup(s) == d;
      DedupFirstOccurrenceOrder(front, i, j);
      FirstIndexAppend(front, y, x1);
      FirstIndexAppend(front, y, x2);
    } else {
      assert Dedup(s) == d + [y];
      FirstIndexAppend(front, y, x1);
      FirstIndexAppend(front, y, x2);
      if j < |d| {
        assert x1 == d[i] && x2 == d[j];
        DedupFirstOccurrenceOrder(front, i, j);
      } else {
        assert x1 == d[i] && x1 in front && x2 == y;
      }
    }
  }

  /** A sequence that repeats nothing is its own de-duplication. */
  lemma {:induction false} DedupOfDistinct<T>(s: seq<T>)
    requires Distinct(s)
    ensures Dedup(s) == s
    decreases |s|
  {
    if s != [] {
      var front := s[..|s| - 1];
      assert Distinct(front);
      DedupOfDistinct(front);
      assert s[|s| - 1] !in front;
      assert s == front + [s[|s| - 1]];
    }
  }
}
