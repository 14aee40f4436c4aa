/** The array operations the pages are built from: `filter`, `find` and a
    summing `reduce`, each as a function over sequences with what it promises. */
module Seqs {
  import opened Types

  /** `sub` can be obtained from `s` by deleting elements: its elements occur
      in `s` in the same order. */
  predicate IsSubsequence<T(==)>(sub: seq<T>, s: seq<T>)
    decreases |s|
  {
    if sub == [] then true
    else if s == [] then false
    else if sub[0] == s[0] then IsSubsequence(sub[1..], s[1..])
    else IsSubsequence(sub, s[1..])
  }

  /** `Array.prototype.filter`: the elements of `s` that satisfy `p`, in their
      original order. */
  function Filter<T(==)>(s: seq<T>, p: T -> bool): (r: seq<T>)
    ensures |r| <= |s|
    ensures forall i :: 0 <= i < |r| ==> p(r[i])
    ensures forall i :: 0 <= i < |s| && p(s[i]) ==> s[i] in r
    ensures IsSubsequence(r, s)
  {
    if s == [] then []
    else if p(s[0]) then
      var rest := Filter(s[1..], p);
      assert ([s[0]] + rest)[1..] == rest;
      [s[0]] + rest
    else Filter(s[1..], p)
  }

  /** A filter whose predicate holds everywhere keeps the whole sequence. */
  lemma {:induction false} FilterKeepsAll<T>(s: seq<T>, p: T -> bool)
    requires forall x :: x in s ==> p(x)
    ensures Filter(s, p) == s
  {
    if s != [] {
      FilterKeepsAll(s[1..], p);
    }
  }

  /** A filter whose predicate holds nowhere on `s` keeps nothing. */
  lemma {:induction false} FilterKeepsNone<T>(s: seq<T>, p: T -> bool)
    requires forall x :: x in s ==> !p(x)
    ensures Filter(s, p) == []
  {
    if s != [] {
      FilterKeepsNone(s[1..], p);
    }
  }

  /** Filtering depends only on the values of the predicate. */
  lemma {:induction false} FilterExtensional<T>(s: seq<T>, p: T -> bool, q: T -> bool)
    requires forall x :: x in s ==> p(x) == q(x)
    ensures Filter(s, p) == Filter(s, q)
  {
    if s != [] {
      FilterExtensional(s[1..], p, q);
    }
  }

  /** A predicate and its negation split `s` between them. */
  lemma {:induction false} FilterPartition<T>(s: seq<T>, p: T -> bool, q: T -> bool)
    requires forall x :: x in s ==> q(x) == !p(x)
    ensures |Filter(s, p)| + |Filter(s, q)| == |s|
  {
    if s != [] {
      FilterPartition(s[1..], p, q);
    }
  }

  /** The positions of `s` whose element satisfies `p`. */
  function Indices<T>(s: seq<T>, p: T -> bool): set<int>
  {
    set i | 0 <= i < |s| && p(s[i])
  }

  /** A filter keeps one element for each position that satisfies `p`. */
  lemma {:induction false} FilterCountsIndices<T>(s: seq<T>, p: T -> bool)
    ensures |Filter(s, p)| == |Indices(s, p)|
  {
    if s != [] {
      var tail := Indices(s[1..], p);
      FilterCountsIndices(s[1..], p);
      ShiftCardinality(tail);
      IndicesOfTail(s, p);
      var shifted := set i | i in tail :: i + 1;
      assert 0 !in shifted;
      if p(s[0]) {
        assert Indices(s, p) == {0} + shifted;
      } else {
        assert Indices(s, p) == shifted;
      }
    }
  }

  /** The positions of a non-empty `s` are its head's, if it qualifies, and
      those of its tail moved up by one. */
  lemma IndicesOfTail<T>(s: seq<T>, p: T -> bool)
    requires s != []
    ensures Indices(s, p) == (if p(s[0]) then {0} else {}) + (set i | i in Indices(s[1..], p) :: i + 1)
  {
    var tail := Indices(s[1..], p);
    var shifted := set i | i in tail :: i + 1;
    forall i | i in Indices(s, p) && i != 0
      ensures i in shifted
    {
      assert s[1..][i - 1] == s[i];
      assert i - 1 in tail;
    }
    forall i | i in shifted
      ensures i in Indices(s, p)
    {
      assert s[1..][i - 1] == s[i];
    }
  }

  /** Adding one to every element of a set keeps its size. */
  lemma {:induction false} ShiftCardinality(a: set<int>)
    ensures |set i | i in a :: i + 1| == |a|
    decreases |a|
  {
    if |a| > 0 {
      if forall y :: y !in a {
        assert false;
      }
      var x :| x in a;
      var rest := a - {x};
      ShiftCardinality(rest);
      var whole := set i | i in a :: i + 1;
      var part := set i | i in rest :: i + 1;
      forall y | y in whole
        ensures y in part + {x + 1}
      {
        assert y - 1 in a;
        if y - 1 != x {
          assert y - 1 in rest;
        }
      }
      assert whole == part + {x + 1};
      assert x + 1 !in part;
    }
  }

  /** The position of the first element satisfying `p`, or `|s|` if none does
      (`Array.prototype.findIndex`, with `|s|` in place of -1). */
  function FirstIndex<T>(s: seq<T>, p: T -> bool): (k: nat)
    ensures k <= |s|
    ensures forall j :: 0 <= j < k ==> !p(s[j])
    ensures k < |s| ==> p(s[k])
  {
    if s == [] then 0
    else if p(s[0]) then 0
    else
      var k := FirstIndex(s[1..], p);
      assert forall j :: 1 <= j < k + 1 ==> s[j] == s[1..][j - 1];
      1 + k
  }

  /** `Array.prototype.find`: the first element satisfying `p`, if any. */
  function FindFirst<T>(s: seq<T>, p: T -> bool): (r: Option<T>)
    ensures r.None? <==> forall i :: 0 <= i < |s| ==> !p(s[i])
    ensures r.Some? ==> FirstIndex(s, p) < |s| && r.value == s[FirstIndex(s, p)] && p(r.value)
  {
    var k := FirstIndex(s, p);
    if k < |s| then Some(s[k]) else None
  }

  /** `reduce((acc, x) => acc + f(x), 0)`. */
  function Sum<T>(s: seq<T>, f: T -> int): int
  {
    if s == [] then 0 else f(s[0]) + Sum(s[1..], f)
  }

  /** Summing distributes over concatenation. */
  lemma {:induction false} SumConcat<T>(a: seq<T>, b: seq<T>, f: T -> int)
    ensures Sum(a + b, f) == Sum(a, f) + Sum(b, f)
  {
    if a == [] {
      assert a + b == b;
    } else {
      assert (a + b)[0] == a[0];
      assert (a + b)[1..] == a[1..] + b;
      SumConcat(a[1..], b, f);
    }
  }

  /** A sum of non-negative terms is non-negative. */
  lemma {:induction false} SumNonNegative<T>(s: seq<T>, f: T -> int)
    requires forall x :: x in s ==> f(x) >= 0
    ensures Sum(s, f) >= 0
  {
    if s != [] {
      SumNonNegative(s[1..], f);
    }
  }

  /** Summing is monotone in the summand. */
  lemma {:induction false} SumMonotone<T>(s: seq<T>, f: T -> int, g: T -> int)
    requires forall x :: x in s ==> f(x) <= g(x)
    ensures Sum(s, f) <= Sum(s, g)
  {
    if s != [] {
      SumMonotone(s[1..], f, g);
    }
  }

  /** A sum of terms each at most `bound` is at most `|s| * bound`. */
  lemma {:induction false} SumBounded<T>(s: seq<T>, f: T -> int, bound: int)
    requires forall x :: x in s ==> f(x) <= bound
    ensures Sum(s, f) <= |s| * bound
  {
    if s != [] {
      SumBounded(s[1..], f, bound);
    }
  }

  /** A sum of terms no smaller than `bound` is at least `|s|` times it. */
  lemma {:induction false} SumBoundedBelow<T>(s: seq<T>, f: T -> int, bound: int)
    requires forall x :: x in s ==> bound <= f(x)
    ensures |s| * bound <= Sum(s, f)
  {
    if s != [] {
      SumBoundedBelow(s[1..], f, bound);
    }
  }

  /** Each non-negative term is at most the sum. */
  lemma {:induction false} SumAtLeastTerm<T>(s: seq<T>, f: T -> int, i: int)
    requires forall x :: x in s ==> f(x) >= 0
    requires 0 <= i < |s|
    ensures f(s[i]) <= Sum(s, f)
  {
    if i == 0 {
      SumNonNegative(s[1..], f);
    } else {
      SumAtLeastTerm(s[1..], f, i - 1);
    }
  }
}
